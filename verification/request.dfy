/** The uniform request descriptor every operation builds: an HTTP method,
    a path relative to the API base, an optional parameter bag, and the
    entity type the response body is decoded as. */
module Request {
  import opened Common

  datatype Method = Get | Post

  /** An argument value the model passes through without looking inside it
      (`metadata` dictionaries, the `created` filter). */
  datatype Opaque = Opaque(token: string)

  /** A value in the parameter bag. */
  datatype ParamValue =
    | PString(s: string)
    | PInt(i: Int64)
    | PBool(b: bool)
    | PDict(entries: map<string, ParamValue>)
    | POpaque(o: Opaque)

  type Bag = map<string, ParamValue>

  /** The decoding targets a response may be declared as. */
  datatype EntityKind =
    | CustomerEntity | ProductEntity
    | AccountEntity | FeeRefundEntity | FeeEntity | BankAccountEntity | CardEntity

  /** `T` or `ListResponse<T>`. */
  datatype ResponseType = Single(entity: EntityKind) | ListOf(element: EntityKind)

  /** `params == None` is a request that declares no query parameters at
      all; `Some(bag)` one that does, possibly with an empty bag. */
  datatype Descriptor = Descriptor(httpMethod: Method, path: string, params: Option<Bag>, response: ResponseType)

  /** `if let x = x { parameters[key] = x }`: binds `key` only when the
      argument was supplied. */
  function Put(bag: Bag, key: string, v: Option<ParamValue>): (r: Bag)
    ensures r.Keys == if v.Some? then bag.Keys + {key} else bag.Keys
    ensures v.Some? ==> r[key] == v.value
    ensures forall k :: k in bag && k != key ==> r[k] == bag[k]
  {
    match v
    case None => bag
    case Some(x) => bag[key := x]
  }

  function StringArg(a: Option<string>): (r: Option<ParamValue>)
    ensures r.Some? <==> a.Some?
    ensures a.Some? ==> r.value == PString(a.value)
  {
    match a
    case None => None
    case Some(s) => Some(PString(s))
  }

  function IntArg(a: Option<Int64>): (r: Option<ParamValue>)
    ensures r.Some? <==> a.Some?
    ensures a.Some? ==> r.value == PInt(a.value)
  {
    match a
    case None => None
    case Some(i) => Some(PInt(i))
  }

  function BoolArg(a: Option<bool>): (r: Option<ParamValue>)
    ensures r.Some? <==> a.Some?
    ensures a.Some? ==> r.value == PBool(a.value)
  {
    match a
    case None => None
    case Some(b) => Some(PBool(b))
  }

  function OpaqueArg(a: Option<Opaque>): (r: Option<ParamValue>)
    ensures r.Some? <==> a.Some?
    ensures a.Some? ==> r.value == POpaque(a.value)
  {
    match a
    case None => None
    case Some(o) => Some(POpaque(o))
  }

  /** The bag holds `key` exactly when the argument was supplied, bound to
      the supplied value unchanged. */
  predicate Carries(bag: Bag, key: string, arg: Option<ParamValue>) {
    && (key in bag <==> arg.Some?)
    && (arg.Some? ==> bag[key] == arg.value)
  }

  /** The cursor-pagination arguments shared by the list operations. */
  function Paginate(bag: Bag, endingBefore: Option<string>, limit: Option<Int64>, startingAfter: Option<string>): (r: Bag)
    requires "ending_before" !in bag && "limit" !in bag && "starting_after" !in bag
    ensures r.Keys - bag.Keys <= {"ending_before", "limit", "starting_after"}
    ensures Carries(r, "ending_before", StringArg(endingBefore))
    ensures Carries(r, "limit", IntArg(limit))
    ensures Carries(r, "starting_after", StringArg(startingAfter))
    ensures forall k :: k in bag ==> k in r && r[k] == bag[k]
  {
    var b := Put(bag, "ending_before", StringArg(endingBefore));
    var b := Put(b, "limit", IntArg(limit));
    Put(b, "starting_after", StringArg(startingAfter))
  }
}
