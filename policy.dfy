/**
 * The REST resources' access policy and the order in which a request is decided.
 * Each viewset lists the permission classes `[IsAuthenticated, IsAdminOrReadOnly]`;
 * every class must grant before the handler runs, so authorisation comes before
 * the lookup of the object and before the validation of the payload.
 * The principal reaches this decision already authenticated; only its admin flag matters.
 */
module Policy {

  datatype Resource = Products | Customers | Orders

  /** The handlers of a model viewset. `List` and `Retrieve` answer GET; the others write. */
  datatype Action = List | Retrieve | Create | Update | PartialUpdate | Destroy

  datatype Permission = IsAuthenticated | IsAdminOrReadOnly

  /**
   * The responses a request can get, with their HTTP codes below. `ServerError` is what
   * an exception that the REST framework does not translate (such as the model's own
   * ValidationError raised inside `save`) turns into; `Handle` never yields it.
   */
  datatype Status = Ok | Created | NoContent | BadRequest | Forbidden | NotFound | ServerError

  function Code(s: Status): (code: int)
    ensures 200 <= code < 300 <==> IsSuccess(s)
  {
    match s
    case Ok => 200
    case Created => 201
    case NoContent => 204
    case BadRequest => 400
    case Forbidden => 403
    case NotFound => 404
    case ServerError => 500
  }

  predicate IsSuccess(s: Status) {
    s == Ok || s == Created || s == NoContent
  }

  /** Safe requests are the reads. */
  predicate IsRead(a: Action) {
    a == List || a == Retrieve
  }

  /** Handlers that look up one object by id before doing anything else. */
  predicate NeedsObject(a: Action) {
    a == Retrieve || a == Update || a == PartialUpdate || a == Destroy
  }

  /** Handlers that validate a request body. */
  predicate HasPayload(a: Action) {
    a == Create || a == Update || a == PartialUpdate
  }

  /** The `permission_classes` attribute of the viewset serving a resource. */
  function PermissionClasses(r: Resource): (ps: seq<Permission>)
    ensures IsAdminOrReadOnly in ps
  {
    match r
    case Products => [IsAuthenticated, IsAdminOrReadOnly]
    case Customers => [IsAuthenticated, IsAdminOrReadOnly]
    case Orders => [IsAuthenticated, IsAdminOrReadOnly]
  }

  /** One permission class's verdict for an authenticated principal. */
  predicate Grants(p: Permission, isAdmin: bool, a: Action) {
    match p
    case IsAuthenticated => true
    case IsAdminOrReadOnly => IsRead(a) || isAdmin
  }

  /** Every permission class in the list grants the request, checked in list order. */
  predicate AllGrant(ps: seq<Permission>, isAdmin: bool, a: Action)
    ensures AllGrant(ps, isAdmin, a) <==> forall p :: p in ps ==> Grants(p, isAdmin, a)
  {
    ps == [] || (Grants(ps[0], isAdmin, a) && AllGrant(ps[1..], isAdmin, a))
  }

  /** Whether the viewset of resource `r` lets the request through to its handler. */
  predicate Permitted(r: Resource, isAdmin: bool, a: Action)
    ensures Permitted(r, isAdmin, a) <==> IsRead(a) || isAdmin
  {
    AllGrant(PermissionClasses(r), isAdmin, a)
  }

  /** The response to a request whose outcome does not depend on the store any further. */
  function SuccessStatus(a: Action): Status {
    match a
    case Create => Created
    case Destroy => NoContent
    case _ => Ok
  }

  /**
   * The response to a request from an authenticated principal: permissions first,
   * then the lookup of the object, then the validation of the body.
   */
  function Handle(r: Resource, isAdmin: bool, a: Action, idExists: bool, payloadValid: bool): (s: Status)
    ensures s == Forbidden <==> !isAdmin && !IsRead(a)
    ensures s == NotFound <==> (isAdmin || IsRead(a)) && NeedsObject(a) && !idExists
    ensures s == BadRequest <==> isAdmin && HasPayload(a) && (NeedsObject(a) ==> idExists) && !payloadValid
    ensures IsSuccess(s) <==> (isAdmin || IsRead(a)) && (NeedsObject(a) ==> idExists) && (HasPayload(a) ==> payloadValid)
    ensures IsSuccess(s) ==> s == SuccessStatus(a)
    ensures s != ServerError
  {
    if !Permitted(r, isAdmin, a) then Forbidden
    else
      match a
      case List => Ok
      case Retrieve => if idExists then Ok else NotFound
      case Create => if payloadValid then Created else BadRequest
      case Update => if !idExists then NotFound else if payloadValid then Ok else BadRequest
      case PartialUpdate => if !idExists then NotFound else if payloadValid then Ok else BadRequest
      case Destroy => if idExists then NoContent else NotFound
  }

  /** The three resources are governed by one and the same policy. */
  lemma PolicyUniform(r1: Resource, r2: Resource, isAdmin: bool, a: Action, idExists: bool, payloadValid: bool)
    ensures PermissionClasses(r1) == PermissionClasses(r2)
    ensures Handle(r1, isAdmin, a, idExists, payloadValid) == Handle(r2, isAdmin, a, idExists, payloadValid)
  {
  }

  /** Reads of existing objects, and listings, succeed for every authenticated principal. */
  lemma ReadsOpen(r: Resource, isAdmin: bool, payloadValid: bool)
    ensures Handle(r, isAdmin, List, false, payloadValid) == Ok
    ensures Handle(r, isAdmin, Retrieve, true, payloadValid) == Ok
  {
  }

  /** Reading an unknown id is not found, for regular users and admins alike. */
  lemma UnknownReadNotFound(r: Resource, isAdmin: bool, payloadValid: bool)
    ensures Handle(r, isAdmin, Retrieve, false, payloadValid) == NotFound
  {
  }

  /**
   * Authorisation precedes validation: an invalid body is refused as forbidden for a
   * regular user and as a bad request for an admin.
   */
  lemma AuthorizationBeforeValidation(r: Resource, a: Action)
    requires a == Create || a == PartialUpdate || a == Update
    ensures Handle(r, false, a, true, false) == Forbidden
    ensures Handle(r, true, a, true, false) == BadRequest
  {
  }

  /**
   * Authorisation precedes the lookup for writes: deleting an unknown id is forbidden
   * for a regular user and not found for an admin.
   */
  lemma AuthorizationBeforeLookup(r: Resource)
    ensures Handle(r, false, Destroy, false, true) == Forbidden
    ensures Handle(r, true, Destroy, false, true) == NotFound
  {
  }
}
