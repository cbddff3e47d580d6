# Stripe API client core, modelled in Dafny

This project models the core of a small Swift client for the Stripe REST API.
It has two halves.

- **Request descriptors.** Each public operation builds a request with an HTTP
  method, a path and an optional parameter bag, and declares the type it
  expects back. The operations are `Customer.retrieve/create`, `Product.all`,
  and the Connect operations `Account.create/retrieve`,
  `FeeRefund.create/retrieve/all`, `Fee.retrieve/all` and
  `BankAccount.create/retrieve/all`. Each operation is a pure function in
  `stripe_api.dfy`, one module per resource namespace. A missing optional
  argument is `None`. An omitted optional argument puts no key into the
  bag, except `Account.create`'s `type`, which then takes its default
  `"custom"`.
- **Entity decoding.** The `Decodable` entities are `ListResponse<T>`,
  `Customer`, `Product`, `SKUs`, `SKU`, `Inventory` (with its two string
  enums), `PackageDimensions` and the five empty Connect entities. They are
  decoded the way the synthesized initializer and Swift's `JSONDecoder` do it:
  - an entity with properties must be a keyed container; the five Connect
    entities declare none and accept any payload;
  - properties are decoded in declaration order under their `CodingKeys` wire
    names;
  - a missing required key is `KeyNotFound`;
  - `null` where a value is needed is `ValueNotFound`;
  - a value of the wrong JSON kind is `TypeMismatch`;
  - an unknown enum literal, or a number that is not a 64-bit integer where an
    `Int` is expected, is `DataCorrupted`;
  - optional properties use `decodeIfPresent`, so an absent key or `null` gives
    `nil`, but a present value of the wrong type fails;
  - keys the entity does not name are ignored.

The laws in `entity_laws.dfy` characterise each decoder exactly. The payloads
that decode to a given value are described field by field, by wire key. There
are also lemmas for required keys, optional keys, ignored keys, the enum
literal sets and error paths.

`routing.dfy` is an independent reference for the builders. It is a recogniser
that reads a method and a path back into the operation and its identifiers. It
works segment by segment, using the helpers in `paths.dfy` that split a path
at `/` and join segments back. The lemmas prove that the
recogniser inverts every builder, and that every path it accepts is one a
builder produces. The recogniser also has a table of the response type each
operation declares and of which operations take no parameters, and a lemma
checks both against the builders. `responses.dfy` decodes a body as the response type the
descriptor declares.

Files:
- `common.dfy`: `Option`, `Result` and 64-bit `Int`.
- `json.dfy`: JSON values.
- `decoding.dfy`: decoder primitives.
- `request.dfy`: descriptors and parameter bags.
- `stripe_api.dfy`: the builders.
- `paths.dfy` and `routing.dfy`: path splitting and the recogniser.
- `entity.dfy`: the entities and their decoders.
- `entity_laws.dfy`: the decoder laws.
- `responses.dfy`: decoding by declared response type.

## Model

| member | source | states |
|---|---|---|
| Routing.RecognizeCustomerRetrieve | StripeAPISample/Models/StripeAPI/StripeAPI.swift:27-38 | with a slash-free customer id, the method and path `Customer.retrieve` builds (`GET customers/{customerID}`) are recognised as the retrieval of exactly that customer; the request has no parameter bag and declares a single `Customer` |
| CustomerRequests.Create | StripeAPISample/Models/StripeAPI/StripeAPI.swift:52-75 | `POST customers`; the bag holds `email` and `description` exactly when given, with the given values, and nothing else |
| Routing.RecognizeProductAll | StripeAPISample/Models/StripeAPI/StripeAPI.swift:89-98 | the method and path `Product.all` builds (`GET products`) are recognised as the product listing; the request has no parameter bag and declares a `ListResponse<Product>` |
| AccountRequests.Create | StripeAPISample/Models/StripeAPI/StripeAPI.swift:113-136 | `POST accounts`; the keys are `email` and `type`, plus `country` exactly when given; `type` is the caller's value or `"custom"` when omitted |
| Routing.RecognizeAccountRetrieve | StripeAPISample/Models/StripeAPI/StripeAPI.swift:139-156 | with a slash-free account id, the method and path `Connect.Account.retrieve` builds (`GET accounts/{accountID}`) are recognised as the retrieval of exactly that account; no parameter bag, a single `Account` |
| Routing.RecognizeOwnAccount | StripeAPISample/Models/StripeAPI/StripeAPI.swift:139-156 | without an account id, the method and path `Connect.Account.retrieve` builds (`GET accounts`) are recognised as the retrieval of the caller's own account; no parameter bag, a single `Account` |
| FeeRefundRequests.Create | StripeAPISample/Models/StripeAPI/StripeAPI.swift:183-208 | `POST application_fees/{feeID}/refunds`; `amount` and `metadata` are present exactly when given |
| Routing.RecognizeFeeRefundRetrieve | StripeAPISample/Models/StripeAPI/StripeAPI.swift:210-223 | with slash-free ids, `GET application_fees/{feeID}/refunds/{refundID}` is recognised as the retrieval of that refund of that fee, both ids recovered; no parameter bag, a single `FeeRefund` |
| Routing.RecognizeFeeRefundAll | StripeAPISample/Models/StripeAPI/StripeAPI.swift:225-237 | with a slash-free fee id, `GET application_fees/{feeID}/refunds` is recognised as the listing of that fee's refunds; no parameter bag, a `ListResponse<FeeRefund>` |
| Routing.RecognizeFeeRetrieve | StripeAPISample/Models/StripeAPI/StripeAPI.swift:271-283 | with a slash-free fee id, `GET application_fees/{feeID}` is recognised as the retrieval of exactly that fee; no parameter bag, a single `Fee` |
| FeeRequests.All | StripeAPISample/Models/StripeAPI/StripeAPI.swift:285-323 | `GET application_fees`; the five filters are present exactly when given; the charge id travels as `charge`; no other key |
| Request.Paginate | StripeAPISample/Models/StripeAPI/StripeAPI.swift:307-315 | adds `ending_before`, `limit` and `starting_after` exactly when given and keeps every existing key unchanged |
| BankAccountRequests.ExternalAccount | StripeAPISample/Models/StripeAPI/StripeAPI.swift:376-380 | the nested `external_account` map has exactly the three bank-detail keys with the given values |
| BankAccountRequests.Create | StripeAPISample/Models/StripeAPI/StripeAPI.swift:356-401 | `POST accounts/{accountID}/external_accounts`; `external_account` is always present and nested; the five optional keys are flat and present exactly when given |
| Routing.RecognizeBankAccountRetrieve | StripeAPISample/Models/StripeAPI/StripeAPI.swift:404-418 | with slash-free ids, `GET accounts/{accountID}/external_accounts/{bankAccountID}` is recognised as the retrieval of that bank account of that account, both ids recovered; no parameter bag, a single `BankAccount` |
| BankAccountRequests.All | StripeAPISample/Models/StripeAPI/StripeAPI.swift:420-451 | `GET accounts/{accountID}/external_accounts`; the pagination cursors and limit are present exactly when given |
| Routing.DescriptorShape | StripeAPISample/Models/StripeAPI/StripeAPI.swift:17-450 | every operation declares the response type of its resource, a page for the listings; it sends no parameter bag exactly when it is a retrieval, `Product.all` or `FeeRefund.all`, and every other operation sends a bag even with all optional arguments omitted |
| Routing.RecognizeTarget | StripeAPISample/Models/StripeAPI/StripeAPI.swift:17-450 | with slash-free identifiers, the recogniser maps every builder's method and path back to that operation and its identifiers |
| Routing.RecognizedIsTarget | StripeAPISample/Models/StripeAPI/StripeAPI.swift:17-450 | every method and path the recogniser accepts is exactly what the recognised operation's builder produces |
| Routing.TargetInjective | StripeAPISample/Models/StripeAPI/StripeAPI.swift:17-450 | distinct operations or identifiers with slash-free identifiers never share a method and path |
| Routing.SlashInIdentifierCollides | StripeAPISample/Models/StripeAPI/StripeAPI.swift:220-222 | identifiers are interpolated unescaped, so a fee id containing `/refunds/` makes two different refund retrievals share a path |
| Decoding.DecodeInt | StripeAPISample/Models/StripeAPI/StripeAPIEntitiy.swift:29 | an `Int` decodes exactly from an integral JSON number in the 64-bit range; any other number is `DataCorrupted` |
| Decoding.DecodeItems | StripeAPISample/Models/StripeAPI/StripeAPIEntitiy.swift:21 | an array decodes iff every element does, and then holds each element's value at its own index |
| Decoding.DecodeItemsFirstFailure | StripeAPISample/Models/StripeAPI/StripeAPIEntitiy.swift:21 | when element `i` is the first that fails, the array fails with that element's error under `Index(i)` |
| Decoding.DecodeStringMap | StripeAPISample/Models/StripeAPI/StripeAPIEntitiy.swift:66 | a `[String: String]` decodes iff the value is an object of strings, with the same keys and values; a bad entry is `ValueNotFound` exactly when some entry is `null`, and `TypeMismatch` otherwise |
| Decoding.Required | StripeAPISample/Models/StripeAPI/StripeAPIEntitiy.swift:27-29 | a required property fails with `KeyNotFound` at its key when absent; otherwise it is the value's decode, with the key prefixed to any error path |
| Decoding.Optional | StripeAPISample/Models/StripeAPI/StripeAPIEntitiy.swift:31-32 | an optional property is `nil` when absent or `null`; a present value must decode |
| Entity.DecodeInventoryType | StripeAPISample/Models/StripeAPI/StripeAPIEntitiy.swift:144-146 | a decoded inventory type came from exactly its raw string |
| Entity.DecodeBucketValue | StripeAPISample/Models/StripeAPI/StripeAPIEntitiy.swift:148-150 | a decoded bucket value came from exactly its raw string |
| EntityLaws.DecodeListExact | StripeAPISample/Models/StripeAPI/StripeAPIEntitiy.swift:17-22 | a list envelope decodes to `l` iff `object`, `url`, `has_more` and `data` hold `l`'s fields, with the elements decoded in order |
| EntityLaws.DecodeListElementFailure | StripeAPISample/Models/StripeAPI/StripeAPIEntitiy.swift:21 | a failing element is reported under `data` and its index |
| EntityLaws.DecodeListEmpty | StripeAPISample/Models/StripeAPI/StripeAPIEntitiy.swift:17-22 | `has_more` and an empty `data` are independent: the envelope decodes with no elements |
| EntityLaws.DecodeCustomerExact | StripeAPISample/Models/StripeAPI/StripeAPIEntitiy.swift:26-50 | a customer payload decodes to `c` iff each wire key of the table holds `c`'s field, optional ones absent or `null` for `nil` |
| EntityLaws.CustomerRequiresKeys | StripeAPISample/Models/StripeAPI/StripeAPIEntitiy.swift:27-37 | a payload without any one of the six required wire keys fails |
| EntityLaws.CustomerMissingIdReported | StripeAPISample/Models/StripeAPI/StripeAPIEntitiy.swift:27 | without `id` the error is `KeyNotFound` at `id`, the first property |
| EntityLaws.CustomerOptionalKeys | StripeAPISample/Models/StripeAPI/StripeAPIEntitiy.swift:31-36 | currency, default source and email are `nil` exactly when their key is absent or `null` |
| EntityLaws.CustomerOptionalMustBeString | StripeAPISample/Models/StripeAPI/StripeAPIEntitiy.swift:36 | a present, non-null `email` that is not a string fails the whole decode |
| EntityLaws.CustomerIgnoresOtherKeys | StripeAPISample/Models/StripeAPI/StripeAPIEntitiy.swift:40-50 | adding or changing a key outside the table does not change the outcome |
| EntityLaws.DecodeInventoryExact | StripeAPISample/Models/StripeAPI/StripeAPIEntitiy.swift:143-155 | an inventory decodes to `inv` iff `type` holds its raw type, and `quantity` and `value` hold the optional fields |
| EntityLaws.InventoryTypeLiterals | StripeAPISample/Models/StripeAPI/StripeAPIEntitiy.swift:144-146 | a string decodes as an inventory type iff it is `finite`, `bucket` or `infinite`; otherwise the error is `DataCorrupted` |
| EntityLaws.BucketValueLiterals | StripeAPISample/Models/StripeAPI/StripeAPIEntitiy.swift:148-150 | a string decodes as a bucket value iff it is `limited`, `out_of_stock` or `in_stock`; otherwise `DataCorrupted` |
| EntityLaws.InventoryValueIndependentOfType | StripeAPISample/Models/StripeAPI/StripeAPIEntitiy.swift:152-154 | any type decodes with or without a `value`; `value` is not tied to `bucket` |
| EntityLaws.InventoryUnknownValueFails | StripeAPISample/Models/StripeAPI/StripeAPIEntitiy.swift:148-154 | a bucket inventory whose `value` is not one of the three literals fails |
| EntityLaws.DecodePackageDimensionsExact | StripeAPISample/Models/StripeAPI/StripeAPIEntitiy.swift:157-162 | dimensions decode iff the four keys hold numbers, kept as given |
| EntityLaws.DecodeSkuExact | StripeAPISample/Models/StripeAPI/StripeAPIEntitiy.swift:110-140 | a SKU decodes to `s` iff each wire key holds `s`'s field, with `package_dimensions` optional |
| EntityLaws.SkuWithoutDimensions | StripeAPISample/Models/StripeAPI/StripeAPIEntitiy.swift:121 | dropping `package_dimensions` from a decodable SKU still decodes, with no dimensions and the other fields unchanged |
| EntityLaws.DecodeSkusExact | StripeAPISample/Models/StripeAPI/StripeAPIEntitiy.swift:94-107 | the nested SKU list decodes iff `object`, `has_more`, `total_count`, `url` and `data` hold its fields |
| EntityLaws.DecodeProductSound | StripeAPISample/Models/StripeAPI/StripeAPIEntitiy.swift:55-91 | a decoded product is described field by field by the payload |
| EntityLaws.DecodeProductComplete | StripeAPISample/Models/StripeAPI/StripeAPIEntitiy.swift:55-91 | a payload describing a product decodes to that product |
| EntityLaws.DecodeProductExact | StripeAPISample/Models/StripeAPI/StripeAPIEntitiy.swift:55-91 | a product decodes to `p` iff the payload describes `p` under the table's wire keys |
| EntityLaws.ProductRequiresDimensions | StripeAPISample/Models/StripeAPI/StripeAPIEntitiy.swift:68 | unlike a SKU's, a product's package dimensions are required |
| EntityLaws.ConnectEntitiesKeepNothing | StripeAPISample/Models/StripeAPI/StripeAPIEntitiy.swift:169-175 | the five Connect entities decode from every payload, object or not, to the same value: nothing is checked and nothing is kept |
| Responses.DecodeEntity | StripeAPISample/Models/StripeAPI/StripeAPI.swift:18 | decoding as an entity kind yields a value of that kind |
| Responses.DecodeResponse | StripeAPISample/Models/StripeAPI/StripeAPI.swift:80 | the decoded response has the declared shape, single or list, and every element has the declared kind |
| Responses.DecodeEntityCustomer | StripeAPISample/Models/StripeAPI/StripeAPI.swift:18 | decoding as a customer yields `c` iff the body describes `c` field by field, and fails exactly when the customer decoder fails, with its error |
| Responses.DecodeEntityProduct | StripeAPISample/Models/StripeAPI/StripeAPI.swift:80 | decoding as a product yields `p` iff the body describes `p` field by field, and fails exactly when the product decoder fails, with its error |
| Responses.DecodeEntityConnect | StripeAPISample/Models/StripeAPI/StripeAPIEntitiy.swift:169-175 | decoding as any of the five Connect entity kinds succeeds on every body |
| Responses.DecodeResponseOne | StripeAPISample/Models/StripeAPI/StripeAPI.swift:18-28 | a single-entity response is the entity decode of the whole body: the same value, or the same error |
| Responses.DecodeResponsePage | StripeAPISample/Models/StripeAPI/StripeAPIEntitiy.swift:17-22 | a page response is `l` iff the body's envelope holds `l`'s fields and each element decodes, in order, as the declared kind |
| Responses.FeePageOfAnyElements | StripeAPISample/Models/StripeAPI/StripeAPI.swift:269 | a page of fees whose elements are a number and `null` decodes to two fees |
| Responses.RetrieveCustomerRoundTrip | StripeAPISample/Models/StripeAPI/StripeAPI.swift:17-38 | retrieving a customer and decoding any payload that describes it yields that customer |
| Responses.RetrieveCustomerSample | StripeAPISample/Models/StripeAPI/StripeAPIEntitiy.swift:26-50 | a sample `cus_123` retrieval: `account_balance` fills `accountBalance`, a `null` `default_source` is `nil`, and an unknown key is ignored |
| Responses.EmptyProductPage | StripeAPISample/Models/StripeAPI/StripeAPI.swift:79-98 | a product page with `has_more` set and empty `data` decodes to an empty page |

## Left out

- Sending a request (`Session.shared.send`), the returned `SessionTask`, cancellation and callback delivery are left out. They are network I/O in a library whose code is not part of this model.
- The `StripeAPIRequest` protocol is left out: base URL, headers, authentication and response-parser wiring. It is not part of this model. A path here is relative to the base URL.
- Floating-point values are kept as uninterpreted JSON number leaves. This covers `PackageDimensions` (`Float`) and the `TimeInterval` timestamps. The model does not check that a number fits `Float`.
- `URL` parsing of `Product.images` and `SKU.image` is left out, and the strings are kept as sent. Foundation's `URL(string:)` is foreign code, so a string it would reject is accepted here.
- The `metadata` arguments (`[AnyHashable: Any]` and `[AnyHashable: String]`) and the `created` filter (`[String: TimeInterval]`) are opaque parameter values. They are passed through without looking inside.
- Decoding.DecodeStringMap: the error for a bad entry is reported at the map itself, not under the entry's key. The platform decodes the entries in dictionary order, which is unspecified, so when one entry is `null` and another is a non-string, either error may come first; the model always reports `ValueNotFound` then.
- `Card` has no request operation in the client. Only its decode rule is modelled.
- The Connect entities declare no properties. The model takes the synthesized initializer of a struct whose coding keys have no cases to ask for no container at all, so any payload decodes, `null` and non-objects included, and every field is dropped. This is the compiler's derived conformance, which the source does not spell out.
- JSON numbers are modelled after parsing. A number whose value is an integer, however it is written, is `Integral`, so a `Fractional` literal never denotes an integer. The laws hold for values that follow this convention.
- Stripe's API documentation says an inventory's `value` is only present when its type is `bucket`. The decoder does not enforce this, and the model follows the decoder (see `EntityLaws.InventoryValueIndependentOfType`).
- Path identifiers are interpolated without percent-encoding. The round-trip lemmas therefore require slash-free identifiers, and `Routing.SlashInIdentifierCollides` shows what goes wrong without that requirement.
