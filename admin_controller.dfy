// AdminController: the admin-only property list and delete.
module AdminController {
  import opened Wrappers
  import opened Errors
  import opened Security
  import opened PropertyEntity
  import opened PropertyRepository
  import opened PropertyService

  /** The replies of this controller; the list carries the entities themselves, not DTOs. */
  datatype Reply =
    | ListReply(status: Status, properties: seq<PropertyData>)
    | ErrorReply(status: Status, error: string)
    | EmptyReply(status: Status)

  /** The entities of a list, in order. */
  function DataOf(ps: seq<Property>): (ds: seq<PropertyData>)
    reads set i | 0 <= i < |ps| :: ps[i]
    ensures |ds| == |ps|
    ensures forall i :: 0 <= i < |ps| ==> ds[i] == ps[i].Data()
  {
    if ps == [] then [] else [ps[0].Data()] + DataOf(ps[1..])
  }

  /** `getAllProperties`, behind `hasRole('ADMIN')`. */
  function GetAllProperties(store: PropertyStore, auth: Option<Authentication>): Reply
    reads store, store.properties.Values
  {
    if !HasRole(auth, "ADMIN") then EmptyReply(Forbidden403)
    else ListReply(Ok200, DataOf(FindAllPropertiesAdmin(store)))
  }

  /** An admin sees every stored property, whatever its status; nobody else sees any. */
  lemma GetAllPropertiesMeaning(store: PropertyStore, auth: Option<Authentication>)
    requires store.Valid()
    ensures GetAllProperties(store, auth).ListReply? <==> HasRole(auth, "ADMIN")
    ensures HasRole(auth, "ADMIN") ==>
              && GetAllProperties(store, auth).status == Ok200
              && forall k :: k in store.properties ==> store.properties[k].Data() in GetAllProperties(store, auth).properties
    ensures !HasRole(auth, "ADMIN") ==> GetAllProperties(store, auth) == EmptyReply(Forbidden403)
  {
    if HasRole(auth, "ADMIN") {
      FindAllPropertiesAdminMeaning(store);
      var ps := FindAllPropertiesAdmin(store);
      forall k | k in store.properties
        ensures store.properties[k].Data() in DataOf(ps)
      {
        var q := store.properties[k];
        assert store.Stores(q);
        var i :| 0 <= i < |ps| && ps[i] == q;
        assert DataOf(ps)[i] == q.Data();
      }
    }
  }

  const DeleteFailedReply := ErrorReply(InternalServerError500, "Internal error deleting property.")

  /**
   * `deleteAnyProperty`, behind `hasRole('ADMIN')`: the property is
   * removed with no ownership check; 204 when it existed, 404 otherwise,
   * and 500 when a booking still references it.
   */
  method DeleteAnyProperty(store: PropertyStore, auth: Option<Authentication>, id: int, booked: set<int>) returns (reply: Reply)
    requires store.Valid()
    modifies store`properties
    ensures store.Valid()
    ensures !HasRole(auth, "ADMIN") ==> reply == EmptyReply(Forbidden403) && store.properties == old(store.properties)
    ensures HasRole(auth, "ADMIN") && id !in old(store.properties) ==>
              reply == EmptyReply(NotFound404) && store.properties == old(store.properties)
    ensures HasRole(auth, "ADMIN") && id in old(store.properties) && id in booked ==>
              reply == DeleteFailedReply && store.properties == old(store.properties)
    ensures HasRole(auth, "ADMIN") && id in old(store.properties) && id !in booked ==>
              reply == EmptyReply(NoContent204) && store.properties == old(store.properties) - {id}
  {
    if !HasRole(auth, "ADMIN") {
      return EmptyReply(Forbidden403);
    }
    var deleted := DeleteProperty(store, id, booked);
    match deleted {
      case Err(_) => reply := DeleteFailedReply;
      case Ok(true) => reply := EmptyReply(NoContent204);
      case Ok(false) => reply := EmptyReply(NotFound404);
    }
  }
}
