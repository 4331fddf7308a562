// OwnerPropertyController: update, delete and image upload for a property's
// owner. Each endpoint is guarded by `checkOwnership`; the body of each
// endpoint is modelled on its own and then composed with the guard.
module OwnerPropertyController {
  import opened Wrappers
  import opened Text
  import opened JavaStrings
  import opened Errors
  import opened Security
  import opened Users
  import opened PropertyEntity
  import opened PropertyRepository
  import opened PropertyService
  import opened FileStorage
  import PropertyController

  type PropertyDto = PropertyController.PropertyDto

  /** The replies of this controller. */
  datatype Reply =
    | DtoReply(status: Status, dto: Option<PropertyDto>)
    | ErrorReply(status: Status, error: string)
    | EmptyReply(status: Status)
    | UploadedReply(status: Status, message: string, imageFilenames: seq<string>)

  const UploadedMessage: string := "Images uploaded and property updated successfully."
  const NoValidImagesReply := ErrorReply(BadRequest400, "No valid image files were uploaded or processed.")
  const StorePrefix: string := "Failed to store one or more files. "
  const Separator: char := ','

  /**
   * This controller's `convertToDto`: the columns as they are, the
   * amenities as the entity holds them (possibly null), and the owner's
   * fields only when an owner is present.
   */
  function ConvertToDto(p: Option<PropertyData>, amenities: Option<set<string>>): Option<PropertyDto>
  {
    if p.None? then None
    else
      var dto := PropertyController.ColumnsOf(p.value).(amenities := amenities);
      match p.value.owner
      case Some(owner) => Some(dto.(ownerId := owner.id, ownerName := Some(owner.name), ownerEmail := Some(owner.email)))
      case None => Some(dto)
  }

  /**
   * Both conversions keep every column. They agree whenever the owner and
   * the amenities are present; otherwise this one leaves the fields null
   * where the public controller fills in fallbacks.
   */
  lemma ConvertToDtoMeaning(p: Option<PropertyData>, amenities: Option<set<string>>)
    ensures ConvertToDto(p, amenities).None? <==> p.None?
    ensures p.Some? ==>
              var d := ConvertToDto(p, amenities).value;
              && PropertyController.Columns(d) == p.value.(owner := None)
              && d.amenities == amenities
              && (p.value.owner.None? ==> d.ownerId.None? && d.ownerName.None? && d.ownerEmail.None?)
    ensures p.Some? && p.value.owner.Some? && amenities.Some? ==>
              ConvertToDto(p, amenities) == PropertyController.ConvertToDto(p, amenities)
  {
  }

  // ---------------------------------------------------------------- guard

  /**
   * `@PreAuthorize("@propertyService.checkOwnership(#id)")`: `None` lets the
   * call through; a `false` answer is refused with 403; an exception in
   * the check surfaces as a server error.
   */
  function Guard(store: PropertyStore, users: map<string, User>, auth: Option<Authentication>, id: int): Option<Reply>
    reads store, store.properties.Values
  {
    match CheckOwnership(store, users, auth, id)
    case Ok(true) => None
    case Ok(false) => Some(EmptyReply(Forbidden403))
    case Err(_) => Some(EmptyReply(InternalServerError500))
  }

  /** The guard lets through exactly the owner of an existing property. */
  lemma GuardMeaning(store: PropertyStore, users: map<string, User>, auth: Option<Authentication>, id: int)
    ensures Guard(store, users, auth, id).None? <==>
              && !IsAnonymous(auth) && Name(auth.value) in users && id in store.properties
              && store.properties[id].owner.Some? && store.properties[id].owner.value.id.Some?
              && store.properties[id].owner.value.id == users[Name(auth.value)].id
    ensures IsAnonymous(auth) ==> Guard(store, users, auth, id) == Some(EmptyReply(Forbidden403))
  {
    CheckOwnershipMeaning(store, users, auth, id);
  }

  // --------------------------------------------------------------- update

  const UpdateFailedReply := ErrorReply(InternalServerError500, "Error updating property.")
  const DeleteFailedReply := ErrorReply(InternalServerError500, "Error deleting property.")

  /**
   * The body of `updateMyProperty`: 200 with the updated entity, 404 for an
   * unknown id, 500 when the copy leaves a NOT NULL column empty.
   */
  method UpdateMyProperty(store: PropertyStore, id: int, changes: PropertyData, amenities: Option<set<string>>, now: int)
    returns (reply: Reply)
    requires store.Valid()
    modifies store, if id in store.properties then {store.properties[id]} else {}
    ensures store.Valid()
    ensures store.properties == old(store.properties) && store.nextId == old(store.nextId)
    ensures id !in store.properties ==> reply == EmptyReply(NotFound404)
    ensures id in store.properties ==>
              var row := PropertyEntity.Updated(Copied(old(store.properties[id].Data()), changes), now);
              if Writable(row) then
                store.properties[id].Data() == row && reply == DtoReply(Ok200, ConvertToDto(Some(row), amenities))
              else
                store.properties[id].Data() == old(store.properties[id].Data()) && reply == UpdateFailedReply
  {
    var updated := UpdateProperty(store, id, changes, now);
    match updated {
      case Err(_) => reply := UpdateFailedReply;
      case Ok(None) => reply := EmptyReply(NotFound404);
      case Ok(Some(q)) => reply := DtoReply(Ok200, ConvertToDto(Some(q.Data()), amenities));
    }
  }

  /** `updateMyProperty` behind its guard: nobody but the owner changes anything. */
  method GuardedUpdate(store: PropertyStore, users: map<string, User>, auth: Option<Authentication>, id: int,
                       changes: PropertyData, amenities: Option<set<string>>, now: int) returns (reply: Reply)
    requires store.Valid()
    modifies store, if id in store.properties then {store.properties[id]} else {}
    ensures store.Valid()
    ensures store.properties == old(store.properties) && store.nextId == old(store.nextId)
    ensures old(Guard(store, users, auth, id)).Some? ==>
              reply == old(Guard(store, users, auth, id)).value && unchanged(old(store.properties).Values)
    ensures old(Guard(store, users, auth, id)).None? ==>
              && id in store.properties
              && var row := PropertyEntity.Updated(Copied(old(store.properties[id].Data()), changes), now);
                 if Writable(row) then
                   store.properties[id].Data() == row && reply == DtoReply(Ok200, ConvertToDto(Some(row), amenities))
                 else
                   store.properties[id].Data() == old(store.properties[id].Data()) && reply == UpdateFailedReply
  {
    GuardMeaning(store, users, auth, id);
    var refused := Guard(store, users, auth, id);
    if refused.Some? {
      return refused.value;
    }
    reply := UpdateMyProperty(store, id, changes, amenities, now);
  }

  // --------------------------------------------------------------- delete

  /**
   * The body of `deleteMyProperty`: 204 when a property was removed, 404 for
   * an unknown id, 500 when a booking still references the property.
   */
  method DeleteMyProperty(store: PropertyStore, id: int, booked: set<int>) returns (reply: Reply)
    requires store.Valid()
    modifies store`properties
    ensures store.Valid()
    ensures id !in old(store.properties) ==> reply == EmptyReply(NotFound404) && store.properties == old(store.properties)
    ensures id in old(store.properties) && id in booked ==>
              reply == DeleteFailedReply && store.properties == old(store.properties)
    ensures id in old(store.properties) && id !in booked ==>
              reply == EmptyReply(NoContent204) && store.properties == old(store.properties) - {id}
  {
    var deleted := DeleteProperty(store, id, booked);
    match deleted {
      case Err(_) => reply := DeleteFailedReply;
      case Ok(true) => reply := EmptyReply(NoContent204);
      case Ok(false) => reply := EmptyReply(NotFound404);
    }
  }

  /** `deleteMyProperty` behind its guard: only the owner removes the property, and only an unbooked one. */
  method GuardedDelete(store: PropertyStore, users: map<string, User>, auth: Option<Authentication>, id: int, booked: set<int>)
    returns (reply: Reply)
    requires store.Valid()
    modifies store`properties
    ensures store.Valid()
    ensures old(Guard(store, users, auth, id)).Some? ==>
              reply == old(Guard(store, users, auth, id)).value && store.properties == old(store.properties)
    ensures old(Guard(store, users, auth, id)).None? && id in booked ==>
              id in old(store.properties) && reply == DeleteFailedReply && store.properties == old(store.properties)
    ensures old(Guard(store, users, auth, id)).None? && id !in booked ==>
              id in old(store.properties) && store.properties == old(store.properties) - {id} && reply == EmptyReply(NoContent204)
  {
    GuardMeaning(store, users, auth, id);
    var refused := Guard(store, users, auth, id);
    if refused.Some? {
      return refused.value;
    }
    reply := DeleteMyProperty(store, id, booked);
  }

  // --------------------------------------------------------------- upload

  /** The loop's filter: a present, non-empty file whose content type starts with "image/". */
  predicate Eligible(f: Option<UploadedFile>)
  {
    f.Some? && !IsEmptyFile(f.value) && f.value.contentType.Some? && StartsWith(f.value.contentType.value, "image/")
  }

  /**
   * The upload loop over the first `n` files: skip what is not eligible,
   * store the rest in order, and stop at the first storage error. The
   * file at position `i` gets the random name `ids(i)`.
   */
  function Uploaded(files: seq<Option<UploadedFile>>, n: nat, ids: nat -> string): Result<seq<string>, Exception>
    requires n <= |files|
  {
    if n == 0 then Ok([])
    else
      match Uploaded(files, n - 1, ids)
      case Err(e) => Err(e)
      case Ok(names) =>
        if !Eligible(files[n - 1]) then Ok(names)
        else
          match StoreFile(files[n - 1], ids(n - 1))
          case Err(e) => Err(e)
          case Ok(name) => Ok(names + [name])
  }

  /** Once the loop has failed, later files do not matter. */
  lemma {:induction false} FailureSticks(files: seq<Option<UploadedFile>>, n: nat, m: nat, ids: nat -> string)
    requires n <= m <= |files|
    requires Uploaded(files, n, ids).Err?
    ensures Uploaded(files, m, ids) == Uploaded(files, n, ids)
    decreases m - n
  {
    if n < m {
      FailureSticks(files, n, m - 1, ids);
    }
  }

  /** The loop succeeds exactly when every eligible file can be stored. */
  lemma {:induction false} UploadedSucceeds(files: seq<Option<UploadedFile>>, n: nat, ids: nat -> string)
    requires n <= |files|
    ensures Uploaded(files, n, ids).Ok? <==> forall i :: 0 <= i < n && Eligible(files[i]) ==> StoreFile(files[i], ids(i)).Ok?
  {
    if n > 0 {
      UploadedSucceeds(files, n - 1, ids);
    }
  }

  /**
   * The names the loop collects are the stored names of eligible files,
   * and there are none exactly when no file is eligible.
   */
  lemma {:induction false} UploadedNames(files: seq<Option<UploadedFile>>, n: nat, ids: nat -> string)
    requires n <= |files|
    requires Uploaded(files, n, ids).Ok?
    ensures Uploaded(files, n, ids).value == [] <==> forall i :: 0 <= i < n ==> !Eligible(files[i])
    ensures forall k :: 0 <= k < |Uploaded(files, n, ids).value| ==>
              exists i :: 0 <= i < n && Eligible(files[i]) && StoreFile(files[i], ids(i)) == Ok(Uploaded(files, n, ids).value[k])
  {
    if n > 0 {
      var prev := Uploaded(files, n - 1, ids);
      assert prev.Ok?;
      UploadedNames(files, n - 1, ids);
      if Eligible(files[n - 1]) {
        var stored := StoreFile(files[n - 1], ids(n - 1));
        assert stored.Ok?;
        var names := prev.value + [stored.value];
        assert Uploaded(files, n, ids).value == names;
        forall k | 0 <= k < |names|
          ensures exists i :: 0 <= i < n && Eligible(files[i]) && StoreFile(files[i], ids(i)) == Ok(names[k])
        {
          if k == |names| - 1 {
            assert StoreFile(files[n - 1], ids(n - 1)) == Ok(names[k]);
          } else {
            assert names[k] == prev.value[k];
          }
        }
      }
    }
  }

  /** The loop in `uploadMyPropertyImages` that stores the files. */
  method StoreFiles(files: seq<Option<UploadedFile>>, ids: nat -> string) returns (r: Result<seq<string>, Exception>)
    ensures r == Uploaded(files, |files|, ids)
  {
    var names: seq<string> := [];
    var i := 0;
    while i < |files|
      invariant 0 <= i <= |files|
      invariant Uploaded(files, i, ids) == Ok(names)
    {
      var file := files[i];
      if Eligible(file) {
        var stored := StoreFile(file, ids(i));
        if stored.Err? {
          FailureSticks(files, i + 1, |files|, ids);
          return Err(stored.error);
        }
        names := names + [stored.value];
      }
      i := i + 1;
    }
    r := Ok(names);
  }

  /** The new `imageUrls`: the joined names, appended after a comma to a non-blank existing value. */
  function NewImageUrls(existing: Option<string>, names: seq<string>): string
  {
    if existing.Some? && !IsBlank(existing.value) then existing.value + [Separator] + Join(names, [Separator])
    else Join(names, [Separator])
  }

  /**
   * The new names are appended after the pieces already stored, and
   * nothing already stored is lost or reordered.
   */
  lemma NewImageUrlsMeaning(existing: Option<string>, names: seq<string>)
    requires |names| >= 1
    requires forall i :: 0 <= i < |names| ==> Separator !in names[i]
    ensures Split(NewImageUrls(existing, names), Separator) ==
              (if existing.Some? && !IsBlank(existing.value) then Split(existing.value, Separator) else []) + names
  {
    SplitJoin(names, Separator);
    if existing.Some? && !IsBlank(existing.value) {
      SplitConcat(existing.value, Separator, Join(names, [Separator]));
    }
  }

  /**
   * The body of `uploadMyPropertyImages`: 404 for an unknown id, 500 when a
   * file cannot be stored, 400 when nothing was stored, else 200 with the
   * new names, which are appended to the property's `imageUrls`.
   */
  method UploadMyPropertyImages(store: PropertyStore, id: int, files: seq<Option<UploadedFile>>, ids: nat -> string, now: int)
    returns (reply: Reply)
    requires store.Valid()
    modifies store, if id in store.properties then {store.properties[id]} else {}
    ensures store.Valid()
    ensures store.properties == old(store.properties) && store.nextId == old(store.nextId)
    ensures id !in store.properties ==> reply == EmptyReply(NotFound404)
    ensures id in store.properties ==>
              match Uploaded(files, |files|, ids)
              case Err(e) =>
                reply == ErrorReply(InternalServerError500, StorePrefix + e.message)
                && store.properties[id].Data() == old(store.properties[id].Data())
              case Ok(names) =>
                if names == [] then
                  reply == NoValidImagesReply && store.properties[id].Data() == old(store.properties[id].Data())
                else
                  && reply == UploadedReply(Ok200, UploadedMessage, names)
                  && store.properties[id].Data() ==
                       PropertyEntity.Updated(old(store.properties[id].Data())
                                                .(imageUrls := Some(NewImageUrls(old(store.properties[id].imageUrls), names))), now)
  {
    var current := FindPropertyById(store, id);
    if current.None? {
      return EmptyReply(NotFound404);
    }
    var stored := StoreFiles(files, ids);
    if stored.Err? {
      return ErrorReply(InternalServerError500, StorePrefix + stored.error.message);
    }
    var names := stored.value;
    if names == [] {
      return NoValidImagesReply;
    }
    var urls := NewImageUrls(current.value.imageUrls, names);
    var updated := UpdateImageUrls(store, id, Some(urls), now);
    match updated {
      case Ok(_) => reply := UploadedReply(Ok200, UploadedMessage, names);
      case Err(_) => reply := EmptyReply(NotFound404);
    }
  }

  /** `uploadMyPropertyImages` behind its guard: only the owner's property gains images. */
  method GuardedUpload(store: PropertyStore, users: map<string, User>, auth: Option<Authentication>, id: int,
                       files: seq<Option<UploadedFile>>, ids: nat -> string, now: int) returns (reply: Reply)
    requires store.Valid()
    modifies store, if id in store.properties then {store.properties[id]} else {}
    ensures store.Valid()
    ensures store.properties == old(store.properties) && store.nextId == old(store.nextId)
    ensures old(Guard(store, users, auth, id)).Some? ==>
              reply == old(Guard(store, users, auth, id)).value && unchanged(old(store.properties).Values)
    ensures old(Guard(store, users, auth, id)).None? ==>
              && id in store.properties
              && match Uploaded(files, |files|, ids)
                 case Err(e) =>
                   reply == ErrorReply(InternalServerError500, StorePrefix + e.message)
                   && store.properties[id].Data() == old(store.properties[id].Data())
                 case Ok(names) =>
                   if names == [] then
                     reply == NoValidImagesReply && store.properties[id].Data() == old(store.properties[id].Data())
                   else
                     && reply == UploadedReply(Ok200, UploadedMessage, names)
                     && store.properties[id].Data() ==
                          PropertyEntity.Updated(old(store.properties[id].Data())
                                                   .(imageUrls := Some(NewImageUrls(old(store.properties[id].imageUrls), names))), now)
  {
    GuardMeaning(store, users, auth, id);
    var refused := Guard(store, users, auth, id);
    if refused.Some? {
      return refused.value;
    }
    reply := UploadMyPropertyImages(store, id, files, ids, now);
  }
}
