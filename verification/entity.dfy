/** The response entities and their decode rules. Each decoder is the
    synthesized `Decodable` initializer of the client's struct: it opens a
    keyed container, then decodes the stored properties in declaration
    order under the wire keys of the struct's `CodingKeys` (the property
    name itself when there is no table), with `decodeIfPresent` for
    optional properties. Keys the struct does not name are ignored. */
module Entity {
  import opened Common
  import opened Json
  import opened Decoding

  // Entities

  /** The pagination envelope `ListResponse<T>`; it has no key table, so
      its wire keys are its property names, `has_more` included. */
  datatype ListResponse<T> = ListResponse(objectTag: string, url: string, has_more: bool, data: seq<T>)

  datatype Customer = Customer(
    id: string,
    objectTag: string,
    accountBalance: Int64,
    created: Number,
    currency: Option<string>,
    defaultSource: Option<string>,
    delinquent: bool,
    email: Option<string>,
    livemode: bool)

  /** Image URLs are kept as the strings they were sent as. */
  datatype Product = Product(
    id: string,
    objectTag: string,
    active: bool,
    attributes: seq<string>,
    caption: string,
    created: Number,
    description: Option<string>,
    images: seq<string>,
    livemode: bool,
    metadata: map<string, string>,
    name: string,
    packageDimensions: PackageDimensions,
    shippable: bool,
    skus: SKUs,
    updated: Number,
    url: Option<string>)

  datatype SKUs = SKUs(objectTag: string, hasMore: bool, totalCount: Int64, url: string, data: seq<SKU>)

  datatype SKU = SKU(
    id: string,
    objectTag: string,
    active: bool,
    attributes: map<string, string>,
    created: Number,
    currency: string,
    image: Option<string>,
    inventory: Inventory,
    livemode: bool,
    packageDimensions: Option<PackageDimensions>,
    price: Int64,
    product: string,
    updated: Number)

  datatype InventoryType = Finite | Bucket | Infinite

  datatype BucketValue = Limited | OutOfStock | InStock

  datatype Inventory = Inventory(quantity: Option<Int64>, inventoryType: InventoryType, value: Option<BucketValue>)

  datatype PackageDimensions = PackageDimensions(height: Number, length: Number, weight: Number, width: Number)

  /** The Connect entities declare no properties: nothing of the payload
      is kept. */
  datatype Account = Account
  datatype FeeRefund = FeeRefund
  datatype Fee = Fee
  datatype BankAccount = BankAccount
  datatype Card = Card

  // Key tables

  /** `Customer.CodingKeys`: (property, wire key), in declaration order. */
  const CustomerCodingKeys: seq<(string, string)> := [
    ("id", "id"), ("object", "object"), ("accountBalance", "account_balance"),
    ("created", "created"), ("currency", "currency"), ("defaultSource", "default_source"),
    ("delinquent", "delinquent"), ("email", "email"), ("livemode", "livemode")]

  function WireKeys(table: seq<(string, string)>): set<string> {
    set i | 0 <= i < |table| :: table[i].1
  }

  // Enumerations

  /** The raw values of `InventoryType`. */
  function InventoryTypeRaw(t: InventoryType): string {
    match t
    case Finite => "finite"
    case Bucket => "bucket"
    case Infinite => "infinite"
  }

  /** The raw values of `BucketValue`. */
  function BucketValueRaw(v: BucketValue): string {
    match v
    case Limited => "limited"
    case OutOfStock => "out_of_stock"
    case InStock => "in_stock"
  }

  /** A string enum decodes only from one of its raw values; any other
      string is `DataCorrupted`. */
  function DecodeInventoryType(j: Json): (r: Result<InventoryType, DecodeError>)
    ensures r.Success? ==> j == JString(InventoryTypeRaw(r.value))
  {
    var s :- DecodeString(j);
    if s == "finite" then Success(Finite)
    else if s == "bucket" then Success(Bucket)
    else if s == "infinite" then Success(Infinite)
    else Failure(DecodeError(DataCorrupted, []))
  }

  function DecodeBucketValue(j: Json): (r: Result<BucketValue, DecodeError>)
    ensures r.Success? ==> j == JString(BucketValueRaw(r.value))
  {
    var s :- DecodeString(j);
    if s == "limited" then Success(Limited)
    else if s == "out_of_stock" then Success(OutOfStock)
    else if s == "in_stock" then Success(InStock)
    else Failure(DecodeError(DataCorrupted, []))
  }

  // Decoders

  function DecodeList<T>(j: Json, elem: Decoder<T>): Result<ListResponse<T>, DecodeError> {
    var o :- KeyedContainer(j);
    var objectTag :- Required(o, "object", DecodeString);
    var url :- Required(o, "url", DecodeString);
    var hasMore :- Required(o, "has_more", DecodeBool);
    var data :- Required(o, "data", d => DecodeArray(d, elem));
    Success(ListResponse(objectTag, url, hasMore, data))
  }

  function DecodeCustomer(j: Json): Result<Customer, DecodeError> {
    var o :- KeyedContainer(j);
    var id :- Required(o, "id", DecodeString);
    var objectTag :- Required(o, "object", DecodeString);
    var accountBalance :- Required(o, "account_balance", DecodeInt);
    var created :- Required(o, "created", DecodeNumber);
    var currency :- Optional(o, "currency", DecodeString);
    var defaultSource :- Optional(o, "default_source", DecodeString);
    var delinquent :- Required(o, "delinquent", DecodeBool);
    var email :- Optional(o, "email", DecodeString);
    var livemode :- Required(o, "livemode", DecodeBool);
    Success(Customer(id, objectTag, accountBalance, created, currency, defaultSource, delinquent, email, livemode))
  }

  function DecodePackageDimensions(j: Json): Result<PackageDimensions, DecodeError> {
    var o :- KeyedContainer(j);
    var height :- Required(o, "height", DecodeNumber);
    var length :- Required(o, "length", DecodeNumber);
    var weight :- Required(o, "weight", DecodeNumber);
    var width :- Required(o, "width", DecodeNumber);
    Success(PackageDimensions(height, length, weight, width))
  }

  function DecodeInventory(j: Json): Result<Inventory, DecodeError> {
    var o :- KeyedContainer(j);
    var quantity :- Optional(o, "quantity", DecodeInt);
    var inventoryType :- Required(o, "type", DecodeInventoryType);
    var value :- Optional(o, "value", DecodeBucketValue);
    Success(Inventory(quantity, inventoryType, value))
  }

  /** Grouped in two like a product's, in declaration order. */
  function DecodeSku(j: Json): Result<SKU, DecodeError> {
    var o :- KeyedContainer(j);
    var h :- DecodeSkuHead(o);
    var t :- DecodeSkuTail(o);
    Success(SKU(h.0, h.1, h.2, h.3, h.4, h.5, t.0, t.1, t.2, t.3, t.4, t.5, t.6))
  }

  /** `id` through `currency`. */
  function DecodeSkuHead(o: map<string, Json>)
    : Result<(string, string, bool, map<string, string>, Number, string), DecodeError>
  {
    var id :- Required(o, "id", DecodeString);
    var objectTag :- Required(o, "object", DecodeString);
    var active :- Required(o, "active", DecodeBool);
    var attributes :- Required(o, "attributes", DecodeStringMap);
    var created :- Required(o, "created", DecodeNumber);
    var currency :- Required(o, "currency", DecodeString);
    Success((id, objectTag, active, attributes, created, currency))
  }

  /** `image` through `updated`. */
  function DecodeSkuTail(o: map<string, Json>)
    : Result<(Option<string>, Inventory, bool, Option<PackageDimensions>, Int64, string, Number), DecodeError>
  {
    var image :- Optional(o, "image", DecodeString);
    var inventory :- Required(o, "inventory", DecodeInventory);
    var livemode :- Required(o, "livemode", DecodeBool);
    var packageDimensions :- Optional(o, "package_dimensions", DecodePackageDimensions);
    var price :- Required(o, "price", DecodeInt);
    var product :- Required(o, "product", DecodeString);
    var updated :- Required(o, "updated", DecodeNumber);
    Success((image, inventory, livemode, packageDimensions, price, product, updated))
  }

  function DecodeSkus(j: Json): Result<SKUs, DecodeError> {
    var o :- KeyedContainer(j);
    var objectTag :- Required(o, "object", DecodeString);
    var hasMore :- Required(o, "has_more", DecodeBool);
    var totalCount :- Required(o, "total_count", DecodeInt);
    var url :- Required(o, "url", DecodeString);
    var data :- Required(o, "data", d => DecodeArray(d, DecodeSku));
    Success(SKUs(objectTag, hasMore, totalCount, url, data))
  }

  /** A product's properties are decoded in declaration order; the first
      eight and the last eight are grouped so that each group can be
      reasoned about on its own. Grouping keeps the order, so the first
      failing property is still the one reported. */
  function DecodeProduct(j: Json): Result<Product, DecodeError> {
    var o :- KeyedContainer(j);
    var h :- DecodeProductHead(o);
    var t :- DecodeProductTail(o);
    Success(Product(h.0, h.1, h.2, h.3, h.4, h.5, h.6, h.7, t.0, t.1, t.2, t.3, t.4, t.5, t.6, t.7))
  }

  /** `id` through `images`. */
  function DecodeProductHead(o: map<string, Json>)
    : Result<(string, string, bool, seq<string>, string, Number, Option<string>, seq<string>), DecodeError>
  {
    var id :- Required(o, "id", DecodeString);
    var objectTag :- Required(o, "object", DecodeString);
    var active :- Required(o, "active", DecodeBool);
    var attributes :- Required(o, "attributes", DecodeStringArray);
    var caption :- Required(o, "caption", DecodeString);
    var created :- Required(o, "created", DecodeNumber);
    var description :- Optional(o, "description", DecodeString);
    var images :- Required(o, "images", DecodeStringArray);
    Success((id, objectTag, active, attributes, caption, created, description, images))
  }

  /** `livemode` through `url`. */
  function DecodeProductTail(o: map<string, Json>)
    : Result<(bool, map<string, string>, string, PackageDimensions, bool, SKUs, Number, Option<string>), DecodeError>
  {
    var livemode :- Required(o, "livemode", DecodeBool);
    var metadata :- Required(o, "metadata", DecodeStringMap);
    var name :- Required(o, "name", DecodeString);
    var packageDimensions :- Required(o, "package_dimensions", DecodePackageDimensions);
    var shippable :- Required(o, "shippable", DecodeBool);
    var skus :- Required(o, "skus", DecodeSkus);
    var updated :- Required(o, "updated", DecodeNumber);
    var url :- Optional(o, "url", DecodeString);
    Success((livemode, metadata, name, packageDimensions, shippable, skus, updated, url))
  }

  /** An entity without properties. A struct whose coding keys have no
      cases gets a synthesized initializer that asks the decoder for no
      container at all, so every payload decodes, `null` and non-objects
      included, and nothing of it is kept. */
  function DecodeFieldless<T>(j: Json, entity: T): (r: Result<T, DecodeError>)
    ensures r.Success? && r.value == entity
  {
    Success(entity)
  }

  function DecodeAccount(j: Json): Result<Account, DecodeError> { DecodeFieldless(j, Account) }
  function DecodeFeeRefund(j: Json): Result<FeeRefund, DecodeError> { DecodeFieldless(j, FeeRefund) }
  function DecodeFee(j: Json): Result<Fee, DecodeError> { DecodeFieldless(j, Fee) }
  function DecodeBankAccount(j: Json): Result<BankAccount, DecodeError> { DecodeFieldless(j, BankAccount) }
  function DecodeCard(j: Json): Result<Card, DecodeError> { DecodeFieldless(j, Card) }
}
