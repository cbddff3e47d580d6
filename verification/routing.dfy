/** The endpoint catalogue read the other way round: given an HTTP method
    and a path, which operation and which identifiers does it address?
    `Recognize` is written from the catalogue's path shapes
    (`customers/{id}`, `application_fees/{feeID}/refunds/{refundID}`, ...)
    independently of the builders; the lemmas show that it inverts them. */
module Routing {
  import opened Common
  import opened Request
  import opened Paths
  import CustomerRequests
  import ProductRequests
  import AccountRequests
  import FeeRefundRequests
  import FeeRequests
  import BankAccountRequests

  /** An operation together with the identifiers its path carries. */
  datatype Endpoint =
    | CustomerRetrieve(customerID: string)
    | CustomerCreate
    | ProductAll
    | AccountCreate
    | AccountRetrieve(maybeAccountID: Option<string>)
    | FeeRetrieve(feeID: string)
    | FeeAll
    | FeeRefundCreate(feeID: string)
    | FeeRefundRetrieve(feeID: string, refundID: string)
    | FeeRefundAll(feeID: string)
    | BankAccountCreate(accountID: string)
    | BankAccountRetrieve(accountID: string, bankAccountID: string)
    | BankAccountAll(accountID: string)

  /** Every identifier of the endpoint is a single path segment. */
  predicate IdsNoSlash(e: Endpoint) {
    match e
    case CustomerRetrieve(id) => NoSlash(id)
    case AccountRetrieve(id) => id.None? || NoSlash(id.value)
    case FeeRetrieve(f) => NoSlash(f)
    case FeeRefundCreate(f) => NoSlash(f)
    case FeeRefundRetrieve(f, r) => NoSlash(f) && NoSlash(r)
    case FeeRefundAll(f) => NoSlash(f)
    case BankAccountCreate(a) => NoSlash(a)
    case BankAccountRetrieve(a, b) => NoSlash(a) && NoSlash(b)
    case BankAccountAll(a) => NoSlash(a)
    case _ => true
  }

  /** The descriptor the client's builder produces for the endpoint, with
      every optional bag argument omitted. The identifiers are the
      endpoint's own, so for an operation without bag arguments this is
      the builder's whole output. */
  function Build(e: Endpoint): Descriptor {
    match e
    case CustomerRetrieve(id) => CustomerRequests.Retrieve(id)
    case CustomerCreate => CustomerRequests.Create(None, None)
    case ProductAll => ProductRequests.All()
    case AccountCreate => AccountRequests.Create("", None, None)
    case AccountRetrieve(id) => AccountRequests.Retrieve(id)
    case FeeRetrieve(f) => FeeRequests.Retrieve(f)
    case FeeAll => FeeRequests.All(None, None, None, None, None)
    case FeeRefundCreate(f) => FeeRefundRequests.Create(f, None, None)
    case FeeRefundRetrieve(f, r) => FeeRefundRequests.Retrieve(f, r)
    case FeeRefundAll(f) => FeeRefundRequests.All(f)
    case BankAccountCreate(a) => BankAccountRequests.Create(a, "", "", "", None, None, None, None, None)
    case BankAccountRetrieve(a, b) => BankAccountRequests.Retrieve(a, b)
    case BankAccountAll(a) => BankAccountRequests.All(a, None, None, None)
  }

  /** The method and path of the endpoint. No builder's method or path
      depends on its bag arguments, so the ones `Build` omits do not
      matter here. */
  function Target(e: Endpoint): (Method, string) {
    (Build(e).httpMethod, Build(e).path)
  }

  /** The operations whose request overrides no parameters: the
      retrievals, `Product.all` and `FeeRefund.all`. */
  predicate TakesNoParameters(e: Endpoint) {
    || e.CustomerRetrieve? || e.ProductAll? || e.AccountRetrieve? || e.FeeRetrieve?
    || e.FeeRefundRetrieve? || e.FeeRefundAll? || e.BankAccountRetrieve?
  }

  /** The response type each operation declares: the entity of its
      resource, paged for the listings. */
  function DeclaredResponse(e: Endpoint): ResponseType {
    match e
    case CustomerRetrieve(_) => Single(CustomerEntity)
    case CustomerCreate => Single(CustomerEntity)
    case ProductAll => ListOf(ProductEntity)
    case AccountCreate => Single(AccountEntity)
    case AccountRetrieve(_) => Single(AccountEntity)
    case FeeRetrieve(_) => Single(FeeEntity)
    case FeeAll => ListOf(FeeEntity)
    case FeeRefundCreate(_) => Single(FeeRefundEntity)
    case FeeRefundRetrieve(_, _) => Single(FeeRefundEntity)
    case FeeRefundAll(_) => ListOf(FeeRefundEntity)
    case BankAccountCreate(_) => Single(BankAccountEntity)
    case BankAccountRetrieve(_, _) => Single(BankAccountEntity)
    case BankAccountAll(_) => ListOf(BankAccountEntity)
  }

  /** Every operation declares the response type of its resource, and it
      sends no parameter bag exactly when it takes no parameters; the
      others send a bag even when every optional argument is omitted. */
  lemma DescriptorShape(e: Endpoint)
    ensures Build(e).response == DeclaredResponse(e)
    ensures Build(e).params.None? <==> TakesNoParameters(e)
  {
  }

  /** The catalogue of method and path shapes, matched segment by segment. */
  function Recognize(m: Method, path: string): Option<Endpoint> {
    Match(m, Segments(path))
  }

  /** The catalogue entry for a method and a path already split at '/'. */
  function Match(m: Method, s: seq<string>): Option<Endpoint> {
    match m
    case Get =>
      if |s| == 1 then
        if s[0] == "products" then Some(ProductAll)
        else if s[0] == "accounts" then Some(AccountRetrieve(None))
        else if s[0] == "application_fees" then Some(FeeAll)
        else None
      else if |s| == 2 then
        if s[0] == "customers" then Some(CustomerRetrieve(s[1]))
        else if s[0] == "accounts" then Some(AccountRetrieve(Some(s[1])))
        else if s[0] == "application_fees" then Some(FeeRetrieve(s[1]))
        else None
      else if |s| == 3 then
        if s[0] == "application_fees" && s[2] == "refunds" then Some(FeeRefundAll(s[1]))
        else if s[0] == "accounts" && s[2] == "external_accounts" then Some(BankAccountAll(s[1]))
        else None
      else if |s| == 4 then
        if s[0] == "application_fees" && s[2] == "refunds" then Some(FeeRefundRetrieve(s[1], s[3]))
        else if s[0] == "accounts" && s[2] == "external_accounts" then Some(BankAccountRetrieve(s[1], s[3]))
        else None
      else None
    case Post =>
      if |s| == 1 then
        if s[0] == "customers" then Some(CustomerCreate)
        else if s[0] == "accounts" then Some(AccountCreate)
        else None
      else if |s| == 3 then
        if s[0] == "application_fees" && s[2] == "refunds" then Some(FeeRefundCreate(s[1]))
        else if s[0] == "accounts" && s[2] == "external_accounts" then Some(BankAccountCreate(s[1]))
        else None
      else None
  }

  lemma JoinOfTwo(a: string, b: string)
    ensures Join([a, b]) == a + "/" + b
  {
    assert [a, b][1..] == [b];
  }

  lemma JoinOfThree(a: string, b: string, c: string)
    ensures Join([a, b, c]) == a + "/" + b + "/" + c
  {
    assert [a, b, c][1..] == [b, c];
    JoinOfTwo(b, c);
  }

  lemma JoinOfFour(a: string, b: string, c: string, d: string)
    ensures Join([a, b, c, d]) == a + "/" + b + "/" + c + "/" + d
  {
    assert [a, b, c, d][1..] == [b, c, d];
    JoinOfThree(b, c, d);
  }

  /** A builder's path `root/{x}/leaf`, written with the slashes inside
      its literals, is the join of its three segments. */
  lemma ThreeSegmentPath(root: string, x: string, leaf: string, prefix: string, suffix: string)
    requires prefix == root + "/" && suffix == "/" + leaf
    ensures prefix + x + suffix == Join([root, x, leaf])
  {
    JoinOfThree(root, x, leaf);
  }

  /** The same for `root/{x}/leaf/{y}`. */
  lemma FourSegmentPath(root: string, x: string, leaf: string, y: string, prefix: string, infix: string)
    requires prefix == root + "/" && infix == "/" + leaf + "/"
    ensures prefix + x + infix + y == Join([root, x, leaf, y])
  {
    JoinOfFour(root, x, leaf, y);
  }

  /** A path that is the join of slash-free segments is recognised by
      matching those segments. */
  lemma RecognizeJoin(m: Method, segs: seq<string>, e: Endpoint)
    requires |segs| >= 1 && forall k :: 0 <= k < |segs| ==> NoSlash(segs[k])
    requires Match(m, segs) == Some(e)
    ensures Recognize(m, Join(segs)) == Some(e)
  {
    SegmentsOfJoin(segs);
  }

  lemma RecognizeCustomerCreate()
    ensures Recognize(Target(CustomerCreate).0, Target(CustomerCreate).1) == Some(CustomerCreate)
  {
    assert Target(CustomerCreate) == (Post, "customers");
    assert Join(["customers"]) == "customers";
    RecognizeJoin(Post, ["customers"], CustomerCreate);
  }

  lemma RecognizeProductAll()
    ensures Recognize(Target(ProductAll).0, Target(ProductAll).1) == Some(ProductAll)
    ensures Build(ProductAll).params == None && Build(ProductAll).response == DeclaredResponse(ProductAll)
  {
    assert Target(ProductAll) == (Get, "products");
    assert Join(["products"]) == "products";
    RecognizeJoin(Get, ["products"], ProductAll);
  }

  lemma RecognizeAccountCreate()
    ensures Recognize(Target(AccountCreate).0, Target(AccountCreate).1) == Some(AccountCreate)
  {
    assert Target(AccountCreate) == (Post, "accounts");
    assert Join(["accounts"]) == "accounts";
    RecognizeJoin(Post, ["accounts"], AccountCreate);
  }

  lemma RecognizeOwnAccount()
    ensures Recognize(Target(AccountRetrieve(None)).0, Target(AccountRetrieve(None)).1) == Some(AccountRetrieve(None))
    ensures Build(AccountRetrieve(None)).params == None && Build(AccountRetrieve(None)).response == DeclaredResponse(AccountRetrieve(None))
  {
    assert Build(AccountRetrieve(None)) == Descriptor(Get, "accounts", None, Single(AccountEntity));
    assert Join(["accounts"]) == "accounts";
    RecognizeJoin(Get, ["accounts"], AccountRetrieve(None));
  }

  lemma RecognizeFeeAll()
    ensures Recognize(Target(FeeAll).0, Target(FeeAll).1) == Some(FeeAll)
  {
    assert Target(FeeAll) == (Get, "application_fees");
    assert Join(["application_fees"]) == "application_fees";
    RecognizeJoin(Get, ["application_fees"], FeeAll);
  }

  lemma RecognizeCustomerRetrieve(id: string)
    requires NoSlash(id)
    ensures Recognize(Target(CustomerRetrieve(id)).0, Target(CustomerRetrieve(id)).1) == Some(CustomerRetrieve(id))
    ensures Build(CustomerRetrieve(id)).params == None && Build(CustomerRetrieve(id)).response == DeclaredResponse(CustomerRetrieve(id))
  {
    assert Target(CustomerRetrieve(id)) == (Get, "customers/" + id);
    JoinOfTwo("customers", id);
    assert "customers/" + id == "customers" + "/" + id;
    RecognizeJoin(Get, ["customers", id], CustomerRetrieve(id));
  }

  lemma RecognizeAccountRetrieve(id: string)
    requires NoSlash(id)
    ensures Recognize(Target(AccountRetrieve(Some(id))).0, Target(AccountRetrieve(Some(id))).1) == Some(AccountRetrieve(Some(id)))
    ensures Build(AccountRetrieve(Some(id))).params == None && Build(AccountRetrieve(Some(id))).response == DeclaredResponse(AccountRetrieve(Some(id)))
  {
    assert Target(AccountRetrieve(Some(id))) == (Get, "accounts/" + id);
    JoinOfTwo("accounts", id);
    assert "accounts/" + id == "accounts" + "/" + id;
    RecognizeJoin(Get, ["accounts", id], AccountRetrieve(Some(id)));
  }

  lemma RecognizeFeeRetrieve(f: string)
    requires NoSlash(f)
    ensures Recognize(Target(FeeRetrieve(f)).0, Target(FeeRetrieve(f)).1) == Some(FeeRetrieve(f))
    ensures Build(FeeRetrieve(f)).params == None && Build(FeeRetrieve(f)).response == DeclaredResponse(FeeRetrieve(f))
  {
    assert Target(FeeRetrieve(f)) == (Get, "application_fees/" + f);
    JoinOfTwo("application_fees", f);
    assert "application_fees/" + f == "application_fees" + "/" + f;
    RecognizeJoin(Get, ["application_fees", f], FeeRetrieve(f));
  }

  lemma RecognizeFeeRefundCreate(f: string)
    requires NoSlash(f)
    ensures Recognize(Target(FeeRefundCreate(f)).0, Target(FeeRefundCreate(f)).1) == Some(FeeRefundCreate(f))
  {
    assert Target(FeeRefundCreate(f)) == (Post, "application_fees/" + f + "/refunds");
    ThreeSegmentPath("application_fees", f, "refunds", "application_fees/", "/refunds");
    RecognizeJoin(Post, ["application_fees", f, "refunds"], FeeRefundCreate(f));
  }

  lemma RecognizeFeeRefundAll(f: string)
    requires NoSlash(f)
    ensures Recognize(Target(FeeRefundAll(f)).0, Target(FeeRefundAll(f)).1) == Some(FeeRefundAll(f))
    ensures Build(FeeRefundAll(f)).params == None && Build(FeeRefundAll(f)).response == DeclaredResponse(FeeRefundAll(f))
  {
    assert Target(FeeRefundAll(f)) == (Get, "application_fees/" + f + "/refunds");
    ThreeSegmentPath("application_fees", f, "refunds", "application_fees/", "/refunds");
    RecognizeJoin(Get, ["application_fees", f, "refunds"], FeeRefundAll(f));
  }

  lemma RecognizeFeeRefundRetrieve(f: string, r: string)
    requires NoSlash(f) && NoSlash(r)
    ensures Recognize(Target(FeeRefundRetrieve(f, r)).0, Target(FeeRefundRetrieve(f, r)).1) == Some(FeeRefundRetrieve(f, r))
    ensures Build(FeeRefundRetrieve(f, r)).params == None && Build(FeeRefundRetrieve(f, r)).response == DeclaredResponse(FeeRefundRetrieve(f, r))
  {
    assert Target(FeeRefundRetrieve(f, r)) == (Get, "application_fees/" + f + "/refunds/" + r);
    FourSegmentPath("application_fees", f, "refunds", r, "application_fees/", "/refunds/");
    RecognizeJoin(Get, ["application_fees", f, "refunds", r], FeeRefundRetrieve(f, r));
  }

  lemma RecognizeBankAccountCreate(a: string)
    requires NoSlash(a)
    ensures Recognize(Target(BankAccountCreate(a)).0, Target(BankAccountCreate(a)).1) == Some(BankAccountCreate(a))
  {
    var d := BankAccountRequests.Create(a, "", "", "", None, None, None, None, None);
    assert Build(BankAccountCreate(a)) == d;
    assert Target(BankAccountCreate(a)) == (Post, "accounts/" + a + "/external_accounts");
    ThreeSegmentPath("accounts", a, "external_accounts", "accounts/", "/external_accounts");
    RecognizeJoin(Post, ["accounts", a, "external_accounts"], BankAccountCreate(a));
  }

  lemma RecognizeBankAccountAll(a: string)
    requires NoSlash(a)
    ensures Recognize(Target(BankAccountAll(a)).0, Target(BankAccountAll(a)).1) == Some(BankAccountAll(a))
  {
    assert Target(BankAccountAll(a)) == (Get, "accounts/" + a + "/external_accounts");
    ThreeSegmentPath("accounts", a, "external_accounts", "accounts/", "/external_accounts");
    RecognizeJoin(Get, ["accounts", a, "external_accounts"], BankAccountAll(a));
  }

  lemma RecognizeBankAccountRetrieve(a: string, b: string)
    requires NoSlash(a) && NoSlash(b)
    ensures Recognize(Target(BankAccountRetrieve(a, b)).0, Target(BankAccountRetrieve(a, b)).1) == Some(BankAccountRetrieve(a, b))
    ensures Build(BankAccountRetrieve(a, b)).params == None && Build(BankAccountRetrieve(a, b)).response == DeclaredResponse(BankAccountRetrieve(a, b))
  {
    assert Target(BankAccountRetrieve(a, b)) == (Get, "accounts/" + a + "/external_accounts/" + b);
    FourSegmentPath("accounts", a, "external_accounts", b, "accounts/", "/external_accounts/");
    RecognizeJoin(Get, ["accounts", a, "external_accounts", b], BankAccountRetrieve(a, b));
  }

  /** Every path the client builds is recognised as the operation that
      built it, with its identifiers recovered. */
  lemma {:induction false} RecognizeTarget(e: Endpoint)
    requires IdsNoSlash(e)
    ensures Recognize(Target(e).0, Target(e).1) == Some(e)
  {
    match e
    case CustomerRetrieve(id) => RecognizeCustomerRetrieve(id);
    case AccountRetrieve(id) =>
      if id.Some? { RecognizeAccountRetrieve(id.value); } else { RecognizeOwnAccount(); }
    case FeeRetrieve(f) => RecognizeFeeRetrieve(f);
    case FeeRefundCreate(f) => RecognizeFeeRefundCreate(f);
    case FeeRefundAll(f) => RecognizeFeeRefundAll(f);
    case FeeRefundRetrieve(f, r) => RecognizeFeeRefundRetrieve(f, r);
    case BankAccountCreate(a) => RecognizeBankAccountCreate(a);
    case BankAccountAll(a) => RecognizeBankAccountAll(a);
    case BankAccountRetrieve(a, b) => RecognizeBankAccountRetrieve(a, b);
    case CustomerCreate => RecognizeCustomerCreate();
    case ProductAll => RecognizeProductAll();
    case AccountCreate => RecognizeAccountCreate();
    case FeeAll => RecognizeFeeAll();
  }

  /** The facts the reverse direction needs about matched segments. */
  predicate MatchedTarget(m: Method, s: seq<string>)
    requires Match(m, s).Some?
  {
    IdsNoSlash(Match(m, s).value) && Target(Match(m, s).value) == (m, Join(s))
  }

  lemma MatchedOne(m: Method, s: seq<string>)
    requires |s| == 1 && Match(m, s).Some?
    ensures MatchedTarget(m, s)
  {
    assert Join(s) == s[0];
    var e := Match(m, s).value;
    if m == Get {
      if s[0] == "products" {
        assert e == ProductAll && Target(ProductAll) == (Get, "products");
      } else if s[0] == "accounts" {
        assert e == AccountRetrieve(None) && Target(AccountRetrieve(None)) == (Get, "accounts");
      } else {
        assert e == FeeAll && Target(FeeAll) == (Get, "application_fees");
      }
    } else {
      if s[0] == "customers" {
        assert e == CustomerCreate && Target(CustomerCreate) == (Post, "customers");
      } else {
        assert e == AccountCreate && Target(AccountCreate) == (Post, "accounts");
      }
    }
  }

  lemma MatchedTwo(m: Method, s: seq<string>)
    requires |s| == 2 && NoSlash(s[1]) && Match(m, s).Some?
    ensures MatchedTarget(m, s)
  {
    assert s == [s[0], s[1]];
    JoinOfTwo(s[0], s[1]);
    var e := Match(m, s).value;
    var id := s[1];
    if s[0] == "customers" {
      assert e == CustomerRetrieve(id);
      assert "customers" + "/" + id == "customers/" + id;
    } else if s[0] == "accounts" {
      assert e == AccountRetrieve(Some(id));
      assert "accounts" + "/" + id == "accounts/" + id;
    } else {
      assert e == FeeRetrieve(id);
      assert "application_fees" + "/" + id == "application_fees/" + id;
    }
  }

  lemma MatchedThree(m: Method, s: seq<string>)
    requires |s| == 3 && NoSlash(s[1]) && Match(m, s).Some?
    ensures MatchedTarget(m, s)
  {
    assert s == [s[0], s[1], s[2]];
    var e := Match(m, s).value;
    var id := s[1];
    if s[0] == "application_fees" && s[2] == "refunds" {
      ThreeSegmentPath("application_fees", id, "refunds", "application_fees/", "/refunds");
      if m == Get {
        assert e == FeeRefundAll(id);
      } else {
        assert e == FeeRefundCreate(id);
      }
    } else {
      ThreeSegmentPath("accounts", id, "external_accounts", "accounts/", "/external_accounts");
      if m == Get {
        assert e == BankAccountAll(id);
      } else {
        assert e == BankAccountCreate(id);
      }
    }
  }

  lemma MatchedFour(m: Method, s: seq<string>)
    requires |s| == 4 && NoSlash(s[1]) && NoSlash(s[3]) && Match(m, s).Some?
    ensures MatchedTarget(m, s)
  {
    assert s == [s[0], s[1], s[2], s[3]];
    var e := Match(m, s).value;
    var a, b := s[1], s[3];
    if s[0] == "application_fees" && s[2] == "refunds" {
      assert e == FeeRefundRetrieve(a, b);
      FourSegmentPath("application_fees", a, "refunds", b, "application_fees/", "/refunds/");
    } else {
      assert e == BankAccountRetrieve(a, b);
      FourSegmentPath("accounts", a, "external_accounts", b, "accounts/", "/external_accounts/");
    }
  }

  /** Conversely, whatever the catalogue recognises is exactly what the
      corresponding builder produces, with single-segment identifiers. */
  lemma {:induction false} RecognizedIsTarget(m: Method, path: string)
    requires Recognize(m, path).Some?
    ensures IdsNoSlash(Recognize(m, path).value)
    ensures Target(Recognize(m, path).value) == (m, path)
  {
    var s := Segments(path);
    if |s| == 1 {
      MatchedOne(m, s);
    } else if |s| == 2 {
      MatchedTwo(m, s);
    } else if |s| == 3 {
      MatchedThree(m, s);
    } else {
      MatchedFour(m, s);
    }
  }

  /** Distinct endpoints with single-segment identifiers never share a
      method and path. */
  lemma TargetInjective(e1: Endpoint, e2: Endpoint)
    requires IdsNoSlash(e1) && IdsNoSlash(e2)
    requires Target(e1) == Target(e2)
    ensures e1 == e2
  {
    RecognizeTarget(e1);
    RecognizeTarget(e2);
  }

  /** Identifiers are interpolated without escaping: a fee identifier
      that contains "/refunds/" makes two different fee-refund retrievals
      address the same path. */
  lemma SlashInIdentifierCollides(f: string, x: string, y: string)
    ensures FeeRefundRetrieve(f + "/refunds/" + x, y) != FeeRefundRetrieve(f, x + "/refunds/" + y)
    ensures Target(FeeRefundRetrieve(f + "/refunds/" + x, y)) == Target(FeeRefundRetrieve(f, x + "/refunds/" + y))
  {
    assert |f + "/refunds/" + x| > |f|;
    var p := "application_fees/" + (f + "/refunds/" + x) + "/refunds/" + y;
    var q := "application_fees/" + f + "/refunds/" + (x + "/refunds/" + y);
    assert p == q;
  }
}
