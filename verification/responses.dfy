/** Decoding a response body as the type a descriptor declares: the step
    the transport performs with the entity decode rules once a 2xx body
    has arrived. */
module Responses {
  import opened Common
  import opened Json
  import opened Decoding
  import opened Request
  import opened Entity
  import EntityLaws
  import CustomerRequests
  import ProductRequests
  import FeeRequests

  /** A decoded entity of any kind. */
  datatype EntityValue =
    | CustomerValue(customer: Customer)
    | ProductValue(product: Product)
    | AccountValue(account: Account)
    | FeeRefundValue(feeRefund: FeeRefund)
    | FeeValue(fee: Fee)
    | BankAccountValue(bankAccount: BankAccount)
    | CardValue(card: Card)

  function KindOf(v: EntityValue): EntityKind {
    match v
    case CustomerValue(_) => CustomerEntity
    case ProductValue(_) => ProductEntity
    case AccountValue(_) => AccountEntity
    case FeeRefundValue(_) => FeeRefundEntity
    case FeeValue(_) => FeeEntity
    case BankAccountValue(_) => BankAccountEntity
    case CardValue(_) => CardEntity
  }

  function DecodeEntity(k: EntityKind, j: Json): (r: Result<EntityValue, DecodeError>)
    ensures r.Success? ==> KindOf(r.value) == k
  {
    match k
    case CustomerEntity => var c :- DecodeCustomer(j); Success(CustomerValue(c))
    case ProductEntity => var p :- DecodeProduct(j); Success(ProductValue(p))
    case AccountEntity => Success(AccountValue(DecodeAccount(j).value))
    case FeeRefundEntity => Success(FeeRefundValue(DecodeFeeRefund(j).value))
    case FeeEntity => Success(FeeValue(DecodeFee(j).value))
    case BankAccountEntity => Success(BankAccountValue(DecodeBankAccount(j).value))
    case CardEntity => Success(CardValue(DecodeCard(j).value))
  }

  datatype Response = One(entity: EntityValue) | Page(page: ListResponse<EntityValue>)

  /** The decoded value has the shape and entity kind that was declared. */
  predicate Conforms(rt: ResponseType, r: Response) {
    match rt
    case Single(k) => r.One? && KindOf(r.entity) == k
    case ListOf(k) => r.Page? && forall i :: 0 <= i < |r.page.data| ==> KindOf(r.page.data[i]) == k
  }

  /** The element decoder of a page of `k`. */
  function EntityDecoder(k: EntityKind): Decoder<EntityValue> {
    (j: Json) => DecodeEntity(k, j)
  }

  function DecodeResponse(rt: ResponseType, body: Json): (r: Result<Response, DecodeError>)
    ensures r.Success? ==> Conforms(rt, r.value)
  {
    match rt
    case Single(k) =>
      var v :- DecodeEntity(k, body);
      Success(One(v))
    case ListOf(k) =>
      var page :- DecodeList(body, EntityDecoder(k));
      EntityLaws.DecodeListExact(body, EntityDecoder(k), page);
      Success(Page(page))
  }

  /** A customer body decodes as a customer entity exactly when it
      describes that customer, and fails exactly when the customer decoder
      does, with its error. */
  lemma DecodeEntityCustomer(j: Json, c: Customer)
    ensures DecodeEntity(CustomerEntity, j) == Success(CustomerValue(c)) <==> j.JObject? && EntityLaws.IsCustomer(j.fields, c)
    ensures DecodeEntity(CustomerEntity, j).Failure? <==> DecodeCustomer(j).Failure?
    ensures DecodeEntity(CustomerEntity, j).Failure? ==> DecodeEntity(CustomerEntity, j).error == DecodeCustomer(j).error
  {
    EntityLaws.DecodeCustomerExact(j, c);
  }

  /** The same for products. */
  lemma DecodeEntityProduct(j: Json, p: Product)
    ensures DecodeEntity(ProductEntity, j) == Success(ProductValue(p)) <==> j.JObject? && EntityLaws.IsProduct(j.fields, p)
    ensures DecodeEntity(ProductEntity, j).Failure? <==> DecodeProduct(j).Failure?
    ensures DecodeEntity(ProductEntity, j).Failure? ==> DecodeEntity(ProductEntity, j).error == DecodeProduct(j).error
  {
    EntityLaws.DecodeProductExact(j, p);
  }

  /** Any body decodes as any of the Connect entities. */
  lemma DecodeEntityConnect(j: Json)
    ensures DecodeEntity(AccountEntity, j) == Success(AccountValue(Account))
    ensures DecodeEntity(FeeRefundEntity, j) == Success(FeeRefundValue(FeeRefund))
    ensures DecodeEntity(FeeEntity, j) == Success(FeeValue(Fee))
    ensures DecodeEntity(BankAccountEntity, j) == Success(BankAccountValue(BankAccount))
    ensures DecodeEntity(CardEntity, j) == Success(CardValue(Card))
  {
  }

  /** A single-entity response is the entity decode of the whole body,
      with its value and with its error. */
  lemma DecodeResponseOne(k: EntityKind, body: Json, v: EntityValue)
    ensures DecodeResponse(Single(k), body) == Success(One(v)) <==> DecodeEntity(k, body) == Success(v)
    ensures DecodeResponse(Single(k), body).Failure? <==> DecodeEntity(k, body).Failure?
    ensures DecodeResponse(Single(k), body).Failure? ==> DecodeResponse(Single(k), body).error == DecodeEntity(k, body).error
  {
  }

  /** A page response is the body's list envelope, each element decoded
      as the declared entity kind, in order. */
  lemma DecodeResponsePage(k: EntityKind, body: Json, l: ListResponse<EntityValue>)
    ensures DecodeResponse(ListOf(k), body) == Success(Page(l)) <==> body.JObject? && EntityLaws.IsList(body.fields, l, EntityDecoder(k))
  {
    EntityLaws.DecodeListExact(body, EntityDecoder(k), l);
  }

  /** Retrieving a customer and decoding any payload that describes it
      yields that customer, whose id is the one the path was built from. */
  lemma RetrieveCustomerRoundTrip(c: Customer, body: Json)
    requires body.JObject? && EntityLaws.IsCustomer(body.fields, c)
    ensures var d := CustomerRequests.Retrieve(c.id);
      DecodeResponse(d.response, body) == Success(One(CustomerValue(c)))
  {
    EntityLaws.DecodeCustomerExact(body, c);
  }

  /** A sample customer payload: `account_balance` under its wire name, a
      `null` `default_source`, and a `discount` key the entity does not
      declare. */
  const SampleCustomerBody: Json := JObject(map[
    "id" := JString("cus_123"), "object" := JString("customer"),
    "account_balance" := JNum(Integral(2500)), "created" := JNum(Integral(1507852800)),
    "currency" := JString("jpy"), "default_source" := JNull,
    "delinquent" := JBool(false), "email" := JString("a@example.com"),
    "livemode" := JBool(false), "discount" := JNull])

  /** Retrieving `cus_123` and decoding the sample: `account_balance`
      populates `accountBalance`, the `null` source is `None`, and the
      unknown key is ignored. */
  lemma RetrieveCustomerSample()
    ensures DecodeResponse(CustomerRequests.Retrieve("cus_123").response, SampleCustomerBody)
         == Success(One(CustomerValue(Customer("cus_123", "customer", 2500, Integral(1507852800), Some("jpy"),
                                               None, false, Some("a@example.com"), false))))
  {
    var c := Customer("cus_123", "customer", 2500, Integral(1507852800), Some("jpy"),
                      None, false, Some("a@example.com"), false);
    assert EntityLaws.IsCustomer(SampleCustomerBody.fields, c);
    RetrieveCustomerRoundTrip(c, SampleCustomerBody);
  }

  /** A product page with `has_more` set and no data decodes to an empty
      page. */
  lemma EmptyProductPage(url: string)
    ensures var body := JObject(map["object" := JString("list"), "url" := JString(url),
                                    "has_more" := JBool(true), "data" := JArray([])]);
      DecodeResponse(ProductRequests.All().response, body) == Success(Page(ListResponse("list", url, true, [])))
  {
  }

  /** The Connect entities accept any element: a page of fees whose
      elements are a number and a `null` decodes to two fees. */
  lemma FeePageOfAnyElements(url: string)
    ensures var body := JObject(map["object" := JString("list"), "url" := JString(url),
                                    "has_more" := JBool(false), "data" := JArray([JNum(Integral(1)), JNull])]);
      DecodeResponse(FeeRequests.All(None, None, None, None, None).response, body)
        == Success(Page(ListResponse("list", url, false, [FeeValue(Fee), FeeValue(Fee)])))
  {
    var body := JObject(map["object" := JString("list"), "url" := JString(url),
                            "has_more" := JBool(false), "data" := JArray([JNum(Integral(1)), JNull])]);
    var l := ListResponse("list", url, false, [FeeValue(Fee), FeeValue(Fee)]);
    DecodeEntityConnect(JNum(Integral(1)));
    DecodeEntityConnect(JNull);
    assert EntityLaws.IsList(body.fields, l, EntityDecoder(FeeEntity));
    DecodeResponsePage(FeeEntity, body, l);
  }
}
