/** What the entity decoders accept and produce, stated without reference
    to how they are written: for each entity, the exact set of payload
    objects that decode to a given value, and the consequences the client
    relies on (required keys, optional keys, renamed keys, closed enums,
    all-or-nothing lists). */
module EntityLaws {
  import opened Common
  import opened Json
  import opened Decoding
  import opened Entity

  // How an object carries a property value

  /** A required property: the key is present with exactly this value. */
  predicate Has(o: map<string, Json>, key: string, v: Json) {
    key in o && o[key] == v
  }

  /** An optional property: `None` exactly when the key is missing or
      `null`. */
  predicate HasOptional(o: map<string, Json>, key: string, v: Option<Json>) {
    match v
    case None => key !in o || o[key] == JNull
    case Some(x) => key in o && o[key] == x
  }

  function StringJson(v: Option<string>): Option<Json> {
    match v
    case None => None
    case Some(s) => Some(JString(s))
  }

  function IntJson(v: Option<Int64>): Option<Json> {
    match v
    case None => None
    case Some(i) => Some(JNum(Integral(i)))
  }

  function BucketValueJson(v: Option<BucketValue>): Option<Json> {
    match v
    case None => None
    case Some(b) => Some(JString(BucketValueRaw(b)))
  }

  predicate HasStringArray(o: map<string, Json>, key: string, xs: seq<string>) {
    && key in o && o[key].JArray? && |o[key].items| == |xs|
    && forall i :: 0 <= i < |xs| ==> o[key].items[i] == JString(xs[i])
  }

  predicate HasStringMap(o: map<string, Json>, key: string, m: map<string, string>) {
    && key in o && o[key].JObject? && o[key].fields.Keys == m.Keys
    && forall k :: k in m ==> o[key].fields[k] == JString(m[k])
  }

  /** A nested entity, itself characterised by its own decoder's law. */
  ghost predicate HasEntity<T>(o: map<string, Json>, key: string, x: T, dec: Decoder<T>) {
    key in o && dec(o[key]) == Success(x)
  }

  ghost predicate HasOptionalEntity<T>(o: map<string, Json>, key: string, x: Option<T>, dec: Decoder<T>) {
    match x
    case None => key !in o || o[key] == JNull
    case Some(v) => key in o && o[key] != JNull && dec(o[key]) == Success(v)
  }

  /** An array whose elements decode, in order, to `xs`. */
  ghost predicate HasArrayOf<T>(o: map<string, Json>, key: string, xs: seq<T>, dec: Decoder<T>) {
    && key in o && o[key].JArray? && |o[key].items| == |xs|
    && forall i :: 0 <= i < |xs| ==> dec(o[key].items[i]) == Success(xs[i])
  }

  /** The container decoders, characterised by the values they produce. */
  lemma DecodeArrayExact<T>(j: Json, elem: Decoder<T>, xs: seq<T>)
    ensures DecodeArray(j, elem) == Success(xs)
        <==> j.JArray? && |j.items| == |xs| && forall i :: 0 <= i < |xs| ==> elem(j.items[i]) == Success(xs[i])
  {
    if j.JArray? && |j.items| == |xs| && forall i :: 0 <= i < |xs| ==> elem(j.items[i]) == Success(xs[i]) {
      var r := DecodeArray(j, elem);
      assert r.Success?;
      assert r.value == xs;
    }
  }

  lemma DecodeStringArrayExact(o: map<string, Json>, key: string, xs: seq<string>)
    requires key in o
    ensures DecodeStringArray(o[key]) == Success(xs) <==> HasStringArray(o, key, xs)
  {
    var j := o[key];
    if HasStringArray(o, key, xs) {
      var r := DecodeStringArray(j);
      assert r.Success?;
      assert r.value == xs;
    }
  }

  lemma DecodeStringMapExact(o: map<string, Json>, key: string, m: map<string, string>)
    requires key in o
    ensures DecodeStringMap(o[key]) == Success(m) <==> HasStringMap(o, key, m)
  {
    var j := o[key];
    if HasStringMap(o, key, m) {
      var r := DecodeStringMap(j);
      assert r.Success?;
      assert r.value == m;
    }
  }

  // Field laws: one property of a keyed container, by its decoder

  lemma StringField(o: map<string, Json>, key: string, x: string)
    ensures Required(o, key, DecodeString) == Success(x) <==> Has(o, key, JString(x))
  {
  }

  lemma BoolField(o: map<string, Json>, key: string, x: bool)
    ensures Required(o, key, DecodeBool) == Success(x) <==> Has(o, key, JBool(x))
  {
  }

  lemma NumberField(o: map<string, Json>, key: string, x: Number)
    ensures Required(o, key, DecodeNumber) == Success(x) <==> Has(o, key, JNum(x))
  {
  }

  lemma IntField(o: map<string, Json>, key: string, x: Int64)
    ensures Required(o, key, DecodeInt) == Success(x) <==> Has(o, key, JNum(Integral(x)))
  {
  }

  lemma OptionalStringField(o: map<string, Json>, key: string, x: Option<string>)
    ensures Optional(o, key, DecodeString) == Success(x) <==> HasOptional(o, key, StringJson(x))
  {
  }

  lemma StringArrayField(o: map<string, Json>, key: string, xs: seq<string>)
    ensures Required(o, key, DecodeStringArray) == Success(xs) <==> HasStringArray(o, key, xs)
  {
    if key in o {
      DecodeStringArrayExact(o, key, xs);
    }
  }

  lemma StringMapField(o: map<string, Json>, key: string, m: map<string, string>)
    ensures Required(o, key, DecodeStringMap) == Success(m) <==> HasStringMap(o, key, m)
  {
    if key in o {
      DecodeStringMapExact(o, key, m);
    }
  }

  lemma EntityField<T>(o: map<string, Json>, key: string, x: T, dec: Decoder<T>)
    ensures Required(o, key, dec) == Success(x) <==> HasEntity(o, key, x, dec)
  {
  }

  lemma OptionalEntityField<T>(o: map<string, Json>, key: string, x: Option<T>, dec: Decoder<T>)
    ensures Optional(o, key, dec) == Success(x) <==> HasOptionalEntity(o, key, x, dec)
  {
  }

  // ListResponse<T>

  ghost predicate IsList<T>(o: map<string, Json>, l: ListResponse<T>, elem: Decoder<T>) {
    && Has(o, "object", JString(l.objectTag))
    && Has(o, "url", JString(l.url))
    && Has(o, "has_more", JBool(l.has_more))
    && HasArrayOf(o, "data", l.data, elem)
  }

  lemma DecodeListExact<T>(j: Json, elem: Decoder<T>, l: ListResponse<T>)
    ensures DecodeList(j, elem) == Success(l) <==> j.JObject? && IsList(j.fields, l, elem)
  {
    if j.JObject? && "data" in j.fields {
      DecodeArrayExact(j.fields["data"], elem, l.data);
    }
  }

  /** One element that does not decode fails the whole list, and the error
      points at the first such element. */
  lemma DecodeListElementFailure<T>(o: map<string, Json>, elem: Decoder<T>, i: nat)
    requires "object" in o && o["object"].JString?
    requires "url" in o && o["url"].JString?
    requires "has_more" in o && o["has_more"].JBool?
    requires "data" in o && o["data"].JArray? && i < |o["data"].items|
    requires FirstFailure(o["data"].items, elem, i)
    ensures DecodeList(JObject(o), elem).Failure?
    ensures DecodeList(JObject(o), elem).error.path == [Key("data"), Index(i)] + elem(o["data"].items[i]).error.path
  {
    var items := o["data"].items;
    DecodeItemsFirstFailure(items, elem, 0, i);
    assert DecodeArray(o["data"], elem) == DecodeItems(items, elem, 0);
  }

  /** An empty page decodes, whatever `has_more` says. */
  lemma DecodeListEmpty<T>(objectTag: string, url: string, hasMore: bool, elem: Decoder<T>)
    ensures DecodeList(JObject(map["object" := JString(objectTag), "url" := JString(url),
                                   "has_more" := JBool(hasMore), "data" := JArray([])]), elem)
         == Success(ListResponse(objectTag, url, hasMore, []))
  {
  }

  // Customer

  predicate IsCustomer(o: map<string, Json>, c: Customer) {
    && Has(o, "id", JString(c.id))
    && Has(o, "object", JString(c.objectTag))
    && Has(o, "account_balance", JNum(Integral(c.accountBalance)))
    && Has(o, "created", JNum(c.created))
    && HasOptional(o, "currency", StringJson(c.currency))
    && HasOptional(o, "default_source", StringJson(c.defaultSource))
    && Has(o, "delinquent", JBool(c.delinquent))
    && HasOptional(o, "email", StringJson(c.email))
    && Has(o, "livemode", JBool(c.livemode))
  }

  lemma DecodeCustomerExact(j: Json, c: Customer)
    ensures DecodeCustomer(j) == Success(c) <==> j.JObject? && IsCustomer(j.fields, c)
  {
    if j.JObject? {
      var o := j.fields;
      StringField(o, "id", c.id);
      StringField(o, "object", c.objectTag);
      IntField(o, "account_balance", c.accountBalance);
      NumberField(o, "created", c.created);
      OptionalStringField(o, "currency", c.currency);
      OptionalStringField(o, "default_source", c.defaultSource);
      BoolField(o, "delinquent", c.delinquent);
      OptionalStringField(o, "email", c.email);
      BoolField(o, "livemode", c.livemode);
    }
  }

  const CustomerRequiredKeys: set<string> :=
    {"id", "object", "account_balance", "created", "delinquent", "livemode"}

  /** A customer payload lacking a required key does not decode. */
  lemma CustomerRequiresKeys(o: map<string, Json>, key: string)
    requires key in CustomerRequiredKeys && key !in o
    ensures DecodeCustomer(JObject(o)).Failure?
  {
    if DecodeCustomer(JObject(o)).Success? {
      DecodeCustomerExact(JObject(o), DecodeCustomer(JObject(o)).value);
    }
  }

  /** `id` is decoded first, so its absence is what gets reported. */
  lemma CustomerMissingIdReported(o: map<string, Json>)
    requires "id" !in o
    ensures DecodeCustomer(JObject(o)) == Failure(DecodeError(KeyNotFound, [Key("id")]))
  {
  }

  /** The optional properties are `None` exactly when their key is missing
      or `null`. */
  lemma CustomerOptionalKeys(o: map<string, Json>)
    requires DecodeCustomer(JObject(o)).Success?
    ensures var c := DecodeCustomer(JObject(o)).value;
      && (c.currency.None? <==> "currency" !in o || o["currency"] == JNull)
      && (c.defaultSource.None? <==> "default_source" !in o || o["default_source"] == JNull)
      && (c.email.None? <==> "email" !in o || o["email"] == JNull)
  {
    DecodeCustomerExact(JObject(o), DecodeCustomer(JObject(o)).value);
  }

  /** An optional property that is present but not a string fails the
      decode rather than being dropped. */
  lemma CustomerOptionalMustBeString(o: map<string, Json>)
    requires "email" in o && o["email"] != JNull && !o["email"].JString?
    ensures DecodeCustomer(JObject(o)).Failure?
  {
    if DecodeCustomer(JObject(o)).Success? {
      DecodeCustomerExact(JObject(o), DecodeCustomer(JObject(o)).value);
    }
  }

  /** The decoder reads no key outside the key table: any other key may be
      added or changed without effect. */
  lemma CustomerIgnoresOtherKeys(o: map<string, Json>, key: string, v: Json)
    requires key !in WireKeys(CustomerCodingKeys)
    ensures DecodeCustomer(JObject(o[key := v])) == DecodeCustomer(JObject(o))
  {
    forall i | 0 <= i < |CustomerCodingKeys|
      ensures key != CustomerCodingKeys[i].1
    {
      assert CustomerCodingKeys[i].1 in WireKeys(CustomerCodingKeys);
    }
    assert key != CustomerCodingKeys[0].1 && key != CustomerCodingKeys[1].1 && key != CustomerCodingKeys[2].1;
    assert key != CustomerCodingKeys[3].1 && key != CustomerCodingKeys[4].1 && key != CustomerCodingKeys[5].1;
    assert key != CustomerCodingKeys[6].1 && key != CustomerCodingKeys[7].1 && key != CustomerCodingKeys[8].1;
    var o' := o[key := v];
    assert Required(o', "id", DecodeString) == Required(o, "id", DecodeString);
    assert Required(o', "object", DecodeString) == Required(o, "object", DecodeString);
    assert Required(o', "account_balance", DecodeInt) == Required(o, "account_balance", DecodeInt);
    assert Required(o', "created", DecodeNumber) == Required(o, "created", DecodeNumber);
    assert Optional(o', "currency", DecodeString) == Optional(o, "currency", DecodeString);
    assert Optional(o', "default_source", DecodeString) == Optional(o, "default_source", DecodeString);
    assert Required(o', "delinquent", DecodeBool) == Required(o, "delinquent", DecodeBool);
    assert Optional(o', "email", DecodeString) == Optional(o, "email", DecodeString);
    assert Required(o', "livemode", DecodeBool) == Required(o, "livemode", DecodeBool);
  }

  // Inventory

  predicate IsInventory(o: map<string, Json>, inv: Inventory) {
    && HasOptional(o, "quantity", IntJson(inv.quantity))
    && Has(o, "type", JString(InventoryTypeRaw(inv.inventoryType)))
    && HasOptional(o, "value", BucketValueJson(inv.value))
  }

  lemma DecodeInventoryExact(j: Json, inv: Inventory)
    ensures DecodeInventory(j) == Success(inv) <==> j.JObject? && IsInventory(j.fields, inv)
  {
  }

  /** `type` decodes from exactly the three raw values. */
  lemma InventoryTypeLiterals(s: string)
    ensures DecodeInventoryType(JString(s)).Success? <==> s in {"finite", "bucket", "infinite"}
    ensures DecodeInventoryType(JString(s)).Failure? ==> DecodeInventoryType(JString(s)).error.kind == DataCorrupted
  {
  }

  /** `value` decodes from exactly the three raw values. */
  lemma BucketValueLiterals(s: string)
    ensures DecodeBucketValue(JString(s)).Success? <==> s in {"limited", "out_of_stock", "in_stock"}
    ensures DecodeBucketValue(JString(s)).Failure? ==> DecodeBucketValue(JString(s)).error.kind == DataCorrupted
  {
  }

  /** Nothing ties `value` to `type`: every combination decodes, and so
      does an inventory with neither `quantity` nor `value`. */
  lemma InventoryValueIndependentOfType(t: InventoryType, v: BucketValue)
    ensures DecodeInventory(JObject(map["type" := JString(InventoryTypeRaw(t)), "value" := JString(BucketValueRaw(v))]))
         == Success(Inventory(None, t, Some(v)))
    ensures DecodeInventory(JObject(map["type" := JString(InventoryTypeRaw(t))]))
         == Success(Inventory(None, t, None))
  {
    DecodeInventoryExact(JObject(map["type" := JString(InventoryTypeRaw(t)), "value" := JString(BucketValueRaw(v))]),
                         Inventory(None, t, Some(v)));
    DecodeInventoryExact(JObject(map["type" := JString(InventoryTypeRaw(t))]), Inventory(None, t, None));
  }

  /** A bucket inventory whose `value` is not one of the raw values fails. */
  lemma InventoryUnknownValueFails(s: string)
    requires s !in {"limited", "out_of_stock", "in_stock"}
    ensures DecodeInventory(JObject(map["type" := JString("bucket"), "value" := JString(s)])).Failure?
  {
    BucketValueLiterals(s);
  }

  // PackageDimensions, SKU, SKUs, Product

  predicate IsPackageDimensions(o: map<string, Json>, d: PackageDimensions) {
    && Has(o, "height", JNum(d.height))
    && Has(o, "length", JNum(d.length))
    && Has(o, "weight", JNum(d.weight))
    && Has(o, "width", JNum(d.width))
  }

  lemma DecodePackageDimensionsExact(j: Json, d: PackageDimensions)
    ensures DecodePackageDimensions(j) == Success(d) <==> j.JObject? && IsPackageDimensions(j.fields, d)
  {
  }

  ghost predicate IsSku(o: map<string, Json>, s: SKU) {
    && Has(o, "id", JString(s.id))
    && Has(o, "object", JString(s.objectTag))
    && Has(o, "active", JBool(s.active))
    && HasStringMap(o, "attributes", s.attributes)
    && Has(o, "created", JNum(s.created))
    && Has(o, "currency", JString(s.currency))
    && HasOptional(o, "image", StringJson(s.image))
    && HasEntity(o, "inventory", s.inventory, DecodeInventory)
    && Has(o, "livemode", JBool(s.livemode))
    && HasOptionalEntity(o, "package_dimensions", s.packageDimensions, DecodePackageDimensions)
    && Has(o, "price", JNum(Integral(s.price)))
    && Has(o, "product", JString(s.product))
    && Has(o, "updated", JNum(s.updated))
  }

  lemma SkuHeadFields(o: map<string, Json>, s: SKU)
    ensures
      && Has(o, "id", JString(s.id))
      && Has(o, "object", JString(s.objectTag))
      && Has(o, "active", JBool(s.active))
      && HasStringMap(o, "attributes", s.attributes)
      && Has(o, "created", JNum(s.created))
      && Has(o, "currency", JString(s.currency))
    <==>
      DecodeSkuHead(o) == Success((s.id, s.objectTag, s.active, s.attributes, s.created, s.currency))
  {
    StringField(o, "id", s.id);
    StringField(o, "object", s.objectTag);
    BoolField(o, "active", s.active);
    StringMapField(o, "attributes", s.attributes);
    NumberField(o, "created", s.created);
    StringField(o, "currency", s.currency);
  }

  lemma SkuTailFields(o: map<string, Json>, s: SKU)
    ensures
      && HasOptional(o, "image", StringJson(s.image))
      && HasEntity(o, "inventory", s.inventory, DecodeInventory)
      && Has(o, "livemode", JBool(s.livemode))
      && HasOptionalEntity(o, "package_dimensions", s.packageDimensions, DecodePackageDimensions)
      && Has(o, "price", JNum(Integral(s.price)))
      && Has(o, "product", JString(s.product))
      && Has(o, "updated", JNum(s.updated))
    <==>
      DecodeSkuTail(o) == Success((s.image, s.inventory, s.livemode, s.packageDimensions, s.price,
                                   s.product, s.updated))
  {
    OptionalStringField(o, "image", s.image);
    EntityField(o, "inventory", s.inventory, DecodeInventory);
    BoolField(o, "livemode", s.livemode);
    OptionalEntityField(o, "package_dimensions", s.packageDimensions, DecodePackageDimensions);
    IntField(o, "price", s.price);
    StringField(o, "product", s.product);
    NumberField(o, "updated", s.updated);
  }

  lemma DecodeSkuExact(j: Json, s: SKU)
    ensures DecodeSku(j) == Success(s) <==> j.JObject? && IsSku(j.fields, s)
  {
    if j.JObject? {
      SkuHeadFields(j.fields, s);
      SkuTailFields(j.fields, s);
    }
  }

  lemma SkuHeadWithoutDimensions(o: map<string, Json>)
    ensures DecodeSkuHead(o - {"package_dimensions"}) == DecodeSkuHead(o)
  {
    var o' := o - {"package_dimensions"};
    assert Required(o', "id", DecodeString) == Required(o, "id", DecodeString);
    assert Required(o', "object", DecodeString) == Required(o, "object", DecodeString);
    assert Required(o', "active", DecodeBool) == Required(o, "active", DecodeBool);
    assert Required(o', "attributes", DecodeStringMap) == Required(o, "attributes", DecodeStringMap);
    assert Required(o', "created", DecodeNumber) == Required(o, "created", DecodeNumber);
    assert Required(o', "currency", DecodeString) == Required(o, "currency", DecodeString);
  }

  lemma SkuTailWithoutDimensions(o: map<string, Json>)
    requires DecodeSkuTail(o).Success?
    ensures var t := DecodeSkuTail(o).value;
      DecodeSkuTail(o - {"package_dimensions"}) == Success((t.0, t.1, t.2, None, t.4, t.5, t.6))
  {
    var o' := o - {"package_dimensions"};
    assert Optional(o', "image", DecodeString) == Optional(o, "image", DecodeString);
    assert Required(o', "inventory", DecodeInventory) == Required(o, "inventory", DecodeInventory);
    assert Required(o', "livemode", DecodeBool) == Required(o, "livemode", DecodeBool);
    assert Optional(o', "package_dimensions", DecodePackageDimensions) == Success(None);
    assert Required(o', "price", DecodeInt) == Required(o, "price", DecodeInt);
    assert Required(o', "product", DecodeString) == Required(o, "product", DecodeString);
    assert Required(o', "updated", DecodeNumber) == Required(o, "updated", DecodeNumber);
  }

  /** `package_dimensions` is optional in a SKU: dropping it leaves a SKU
      without dimensions. */
  lemma SkuWithoutDimensions(o: map<string, Json>)
    requires DecodeSku(JObject(o)).Success?
    ensures DecodeSku(JObject(o - {"package_dimensions"}))
         == Success(DecodeSku(JObject(o)).value.(packageDimensions := None))
  {
    SkuHeadWithoutDimensions(o);
    SkuTailWithoutDimensions(o);
  }

  ghost predicate IsSkus(o: map<string, Json>, s: SKUs) {
    && Has(o, "object", JString(s.objectTag))
    && Has(o, "has_more", JBool(s.hasMore))
    && Has(o, "total_count", JNum(Integral(s.totalCount)))
    && Has(o, "url", JString(s.url))
    && HasArrayOf(o, "data", s.data, DecodeSku)
  }

  lemma DecodeSkusExact(j: Json, s: SKUs)
    ensures DecodeSkus(j) == Success(s) <==> j.JObject? && IsSkus(j.fields, s)
  {
    if j.JObject? && "data" in j.fields {
      DecodeArrayExact(j.fields["data"], DecodeSku, s.data);
    }
  }

  ghost predicate IsProduct(o: map<string, Json>, p: Product) {
    && Has(o, "id", JString(p.id))
    && Has(o, "object", JString(p.objectTag))
    && Has(o, "active", JBool(p.active))
    && HasStringArray(o, "attributes", p.attributes)
    && Has(o, "caption", JString(p.caption))
    && Has(o, "created", JNum(p.created))
    && HasOptional(o, "description", StringJson(p.description))
    && HasStringArray(o, "images", p.images)
    && Has(o, "livemode", JBool(p.livemode))
    && HasStringMap(o, "metadata", p.metadata)
    && Has(o, "name", JString(p.name))
    && HasEntity(o, "package_dimensions", p.packageDimensions, DecodePackageDimensions)
    && Has(o, "shippable", JBool(p.shippable))
    && HasEntity(o, "skus", p.skus, DecodeSkus)
    && Has(o, "updated", JNum(p.updated))
    && HasOptional(o, "url", StringJson(p.url))
  }

  /** The first eight properties of a product, as its decoder reads them. */
  lemma ProductHeadFields(o: map<string, Json>, p: Product)
    ensures
      && Has(o, "id", JString(p.id))
      && Has(o, "object", JString(p.objectTag))
      && Has(o, "active", JBool(p.active))
      && HasStringArray(o, "attributes", p.attributes)
      && Has(o, "caption", JString(p.caption))
      && Has(o, "created", JNum(p.created))
      && HasOptional(o, "description", StringJson(p.description))
      && HasStringArray(o, "images", p.images)
    <==>
      DecodeProductHead(o) == Success((p.id, p.objectTag, p.active, p.attributes, p.caption, p.created,
                                       p.description, p.images))
  {
    StringField(o, "id", p.id);
    StringField(o, "object", p.objectTag);
    BoolField(o, "active", p.active);
    StringArrayField(o, "attributes", p.attributes);
    StringField(o, "caption", p.caption);
    NumberField(o, "created", p.created);
    OptionalStringField(o, "description", p.description);
    StringArrayField(o, "images", p.images);
  }

  /** The last eight properties of a product, as its decoder reads them. */
  lemma ProductTailFields(o: map<string, Json>, p: Product)
    ensures
      && Has(o, "livemode", JBool(p.livemode))
      && HasStringMap(o, "metadata", p.metadata)
      && Has(o, "name", JString(p.name))
      && HasEntity(o, "package_dimensions", p.packageDimensions, DecodePackageDimensions)
      && Has(o, "shippable", JBool(p.shippable))
      && HasEntity(o, "skus", p.skus, DecodeSkus)
      && Has(o, "updated", JNum(p.updated))
      && HasOptional(o, "url", StringJson(p.url))
    <==>
      DecodeProductTail(o) == Success((p.livemode, p.metadata, p.name, p.packageDimensions, p.shippable,
                                       p.skus, p.updated, p.url))
  {
    BoolField(o, "livemode", p.livemode);
    StringMapField(o, "metadata", p.metadata);
    StringField(o, "name", p.name);
    EntityField(o, "package_dimensions", p.packageDimensions, DecodePackageDimensions);
    BoolField(o, "shippable", p.shippable);
    EntityField(o, "skus", p.skus, DecodeSkus);
    NumberField(o, "updated", p.updated);
    OptionalStringField(o, "url", p.url);
  }

  lemma DecodeProductSound(o: map<string, Json>)
    requires DecodeProduct(JObject(o)).Success?
    ensures IsProduct(o, DecodeProduct(JObject(o)).value)
  {
    var p := DecodeProduct(JObject(o)).value;
    ProductHeadFields(o, p);
    ProductTailFields(o, p);
  }

  lemma DecodeProductComplete(o: map<string, Json>, p: Product)
    requires IsProduct(o, p)
    ensures DecodeProduct(JObject(o)) == Success(p)
  {
    ProductHeadFields(o, p);
    ProductTailFields(o, p);
  }

  lemma DecodeProductExact(j: Json, p: Product)
    ensures DecodeProduct(j) == Success(p) <==> j.JObject? && IsProduct(j.fields, p)
  {
    if DecodeProduct(j) == Success(p) {
      DecodeProductSound(j.fields);
    } else if j.JObject? && IsProduct(j.fields, p) {
      DecodeProductComplete(j.fields, p);
    }
  }

  /** `package_dimensions` is required in a product. */
  lemma ProductRequiresDimensions(o: map<string, Json>)
    requires "package_dimensions" !in o
    ensures DecodeProduct(JObject(o)).Failure?
  {
    if DecodeProduct(JObject(o)).Success? {
      DecodeProductExact(JObject(o), DecodeProduct(JObject(o)).value);
    }
  }

  // Connect entities

  /** Every payload, object or not, decodes to the Connect entities, and
      two different payloads decode to the same value: nothing of the
      payload is kept and nothing of it is checked. */
  lemma ConnectEntitiesKeepNothing(j1: Json, j2: Json)
    ensures DecodeAccount(j1) == DecodeAccount(j2) == Success(Account)
    ensures DecodeFeeRefund(j1) == DecodeFeeRefund(j2) == Success(FeeRefund)
    ensures DecodeFee(j1) == DecodeFee(j2) == Success(Fee)
    ensures DecodeBankAccount(j1) == DecodeBankAccount(j2) == Success(BankAccount)
    ensures DecodeCard(j1) == DecodeCard(j2) == Success(Card)
  {
  }
}
