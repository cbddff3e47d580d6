/* The operation catalogue of the client: one module per resource
   namespace, one builder per operation. Each builder is the private
   request struct of that operation, taking the public function's
   arguments (an omitted optional argument is `None`) and producing the
   descriptor that is handed to the transport. */

module CustomerRequests {
  import opened Common
  import opened Request

  /** `Customer.retrieve(customerID:)` */
  function Retrieve(customerID: string): Descriptor {
    Descriptor(Get, "customers/" + customerID, None, Single(CustomerEntity))
  }

  /** `Customer.create(email:description:)` */
  function Create(email: Option<string>, description: Option<string>): (d: Descriptor)
    ensures d.httpMethod == Post
    ensures d.path == "customers"
    ensures d.params.Some?
    ensures d.params.value.Keys <= {"email", "description"}
    ensures Carries(d.params.value, "email", StringArg(email))
    ensures Carries(d.params.value, "description", StringArg(description))
    ensures d.response == Single(CustomerEntity)
  {
    var bag := Put(map[], "email", StringArg(email));
    var bag := Put(bag, "description", StringArg(description));
    Descriptor(Post, "customers", Some(bag), Single(CustomerEntity))
  }
}

module ProductRequests {
  import opened Common
  import opened Request

  /** `Product.all()`: no arguments and no parameters. */
  function All(): Descriptor {
    Descriptor(Get, "products", None, ListOf(ProductEntity))
  }
}

module AccountRequests {
  import opened Common
  import opened Request

  /** The default of `create`'s `type` argument. */
  const DefaultAccountType: string := "custom"

  /** `Connect.Account.create(email:country:type:)`; `accountType == None`
      is a call that leaves `type` at its default. */
  function Create(email: string, country: Option<string>, accountType: Option<string>): (d: Descriptor)
    ensures d.httpMethod == Post
    ensures d.path == "accounts"
    ensures d.params.Some?
    ensures d.params.value.Keys == {"email", "type"} + (if country.Some? then {"country"} else {})
    ensures d.params.value["email"] == PString(email)
    ensures Carries(d.params.value, "country", StringArg(country))
    ensures accountType.Some? ==> d.params.value["type"] == PString(accountType.value)
    ensures accountType.None? ==> d.params.value["type"] == PString("custom")
    ensures d.response == Single(AccountEntity)
  {
    var typ := match accountType case Some(t) => t case None => DefaultAccountType;
    var bag := map["email" := PString(email)];
    var bag := Put(bag, "country", StringArg(country));
    var bag := bag["type" := PString(typ)];
    Descriptor(Post, "accounts", Some(bag), Single(AccountEntity))
  }

  /** `Connect.Account.retrieve(accountID:)`: without an id, the account the
      API key belongs to. */
  function Retrieve(accountID: Option<string>): Descriptor {
    var path := match accountID case Some(id) => "accounts/" + id case None => "accounts";
    Descriptor(Get, path, None, Single(AccountEntity))
  }
}

module FeeRefundRequests {
  import opened Common
  import opened Request

  /** `Connect.FeeRefund.create(feeID:amount:metadata:)` */
  function Create(feeID: string, amount: Option<Int64>, metadata: Option<Opaque>): (d: Descriptor)
    ensures d.httpMethod == Post
    ensures d.path == "application_fees/" + feeID + "/refunds"
    ensures d.params.Some?
    ensures d.params.value.Keys <= {"amount", "metadata"}
    ensures Carries(d.params.value, "amount", IntArg(amount))
    ensures Carries(d.params.value, "metadata", OpaqueArg(metadata))
    ensures d.response == Single(FeeRefundEntity)
  {
    var bag := Put(map[], "amount", IntArg(amount));
    var bag := Put(bag, "metadata", OpaqueArg(metadata));
    Descriptor(Post, "application_fees/" + feeID + "/refunds", Some(bag), Single(FeeRefundEntity))
  }

  /** `Connect.FeeRefund.retrieve(feeID:refundID:)` */
  function Retrieve(feeID: string, refundID: string): Descriptor {
    Descriptor(Get, "application_fees/" + feeID + "/refunds/" + refundID, None, Single(FeeRefundEntity))
  }

  /** `Connect.FeeRefund.all(feeID:)` */
  function All(feeID: string): Descriptor {
    Descriptor(Get, "application_fees/" + feeID + "/refunds", None, ListOf(FeeRefundEntity))
  }
}

module FeeRequests {
  import opened Common
  import opened Request

  /** `Connect.Fee.retrieve(feeID:)` */
  function Retrieve(feeID: string): Descriptor {
    Descriptor(Get, "application_fees/" + feeID, None, Single(FeeEntity))
  }

  /** `Connect.Fee.all(chargeID:created:endingBefore:limit:startingAfter:)`;
      the charge filter travels under the key `charge`. */
  function All(chargeID: Option<string>, created: Option<Opaque>, endingBefore: Option<string>,
               limit: Option<Int64>, startingAfter: Option<string>): (d: Descriptor)
    ensures d.httpMethod == Get
    ensures d.path == "application_fees"
    ensures d.params.Some?
    ensures d.params.value.Keys <= {"charge", "created", "ending_before", "limit", "starting_after"}
    ensures Carries(d.params.value, "charge", StringArg(chargeID))
    ensures Carries(d.params.value, "created", OpaqueArg(created))
    ensures Carries(d.params.value, "ending_before", StringArg(endingBefore))
    ensures Carries(d.params.value, "limit", IntArg(limit))
    ensures Carries(d.params.value, "starting_after", StringArg(startingAfter))
    ensures d.response == ListOf(FeeEntity)
  {
    var bag := Put(map[], "charge", StringArg(chargeID));
    var bag := Put(bag, "created", OpaqueArg(created));
    var bag := Paginate(bag, endingBefore, limit, startingAfter);
    Descriptor(Get, "application_fees", Some(bag), ListOf(FeeEntity))
  }
}

module BankAccountRequests {
  import opened Common
  import opened Request

  /** The `external_account` sub-map of `create`. */
  function ExternalAccount(accountNumber: string, country: string, currency: string): (v: ParamValue)
    ensures v.PDict? && v.entries.Keys == {"account_number", "country", "currency"}
    ensures v.entries["account_number"] == PString(accountNumber)
    ensures v.entries["country"] == PString(country)
    ensures v.entries["currency"] == PString(currency)
  {
    PDict(map["account_number" := PString(accountNumber),
              "country" := PString(country),
              "currency" := PString(currency)])
  }

  /** The optional arguments of `create`, each a top-level key of its own. */
  function FlatOptions(accountHolderName: Option<string>, accountHolderType: Option<string>,
                       routingNumber: Option<string>, defaultForCurrency: Option<bool>,
                       metadata: Option<Opaque>): (bag: Bag)
    ensures bag.Keys <= {"account_holder_name", "account_holder_type", "routing_number",
                         "default_for_currency", "metadata"}
    ensures Carries(bag, "account_holder_name", StringArg(accountHolderName))
    ensures Carries(bag, "account_holder_type", StringArg(accountHolderType))
    ensures Carries(bag, "routing_number", StringArg(routingNumber))
    ensures Carries(bag, "default_for_currency", BoolArg(defaultForCurrency))
    ensures Carries(bag, "metadata", OpaqueArg(metadata))
  {
    var bag := Put(map[], "account_holder_name", StringArg(accountHolderName));
    var bag := Put(bag, "account_holder_type", StringArg(accountHolderType));
    var bag := Put(bag, "routing_number", StringArg(routingNumber));
    var bag := Put(bag, "default_for_currency", BoolArg(defaultForCurrency));
    Put(bag, "metadata", OpaqueArg(metadata))
  }

  /** `Connect.BankAccount.create(accountID:accountNumber:country:currency:
      accountHolderName:accountHolderType:routingNumber:defaultForCurrency:metadata:)`:
      the three required bank details nested under `external_account`, the
      optional ones flat. */
  function Create(accountID: string, accountNumber: string, country: string, currency: string,
                  accountHolderName: Option<string>, accountHolderType: Option<string>,
                  routingNumber: Option<string>, defaultForCurrency: Option<bool>,
                  metadata: Option<Opaque>): (d: Descriptor)
    ensures d.httpMethod == Post
    ensures d.path == "accounts/" + accountID + "/external_accounts"
    ensures d.params.Some?
    ensures "external_account" in d.params.value
    ensures d.params.value.Keys <= {"external_account", "account_holder_name", "account_holder_type",
                                    "routing_number", "default_for_currency", "metadata"}
    ensures var ext := d.params.value["external_account"];
      && ext.PDict?
      && ext.entries.Keys == {"account_number", "country", "currency"}
      && ext.entries["account_number"] == PString(accountNumber)
      && ext.entries["country"] == PString(country)
      && ext.entries["currency"] == PString(currency)
    ensures Carries(d.params.value, "account_holder_name", StringArg(accountHolderName))
    ensures Carries(d.params.value, "account_holder_type", StringArg(accountHolderType))
    ensures Carries(d.params.value, "routing_number", StringArg(routingNumber))
    ensures Carries(d.params.value, "default_for_currency", BoolArg(defaultForCurrency))
    ensures Carries(d.params.value, "metadata", OpaqueArg(metadata))
    ensures d.response == Single(BankAccountEntity)
  {
    var flat := FlatOptions(accountHolderName, accountHolderType, routingNumber, defaultForCurrency, metadata);
    var bag := flat["external_account" := ExternalAccount(accountNumber, country, currency)];
    Descriptor(Post, "accounts/" + accountID + "/external_accounts", Some(bag), Single(BankAccountEntity))
  }

  /** `Connect.BankAccount.retrieve(accountID:bankAccountID:)` */
  function Retrieve(accountID: string, bankAccountID: string): Descriptor {
    Descriptor(Get, "accounts/" + accountID + "/external_accounts/" + bankAccountID, None, Single(BankAccountEntity))
  }

  /** `Connect.BankAccount.all(accountID:endingBefore:limit:startingAfter:)` */
  function All(accountID: string, endingBefore: Option<string>, limit: Option<Int64>,
               startingAfter: Option<string>): (d: Descriptor)
    ensures d.httpMethod == Get
    ensures d.path == "accounts/" + accountID + "/external_accounts"
    ensures d.params.Some?
    ensures d.params.value.Keys <= {"ending_before", "limit", "starting_after"}
    ensures Carries(d.params.value, "ending_before", StringArg(endingBefore))
    ensures Carries(d.params.value, "limit", IntArg(limit))
    ensures Carries(d.params.value, "starting_after", StringArg(startingAfter))
    ensures d.response == ListOf(BankAccountEntity)
  {
    var bag := Paginate(map[], endingBefore, limit, startingAfter);
    Descriptor(Get, "accounts/" + accountID + "/external_accounts", Some(bag), ListOf(BankAccountEntity))
  }
}
