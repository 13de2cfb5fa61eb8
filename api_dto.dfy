/**
 * The product request and response shapes (services/product-service/internal/infrastructure/api/dto.go):
 * request validation in a fixed field order, conversion of a request into a new `Product`, and the
 * response view of a product.
 *
 * `uuid.Parse`, `UUID.String` and `Time.Format(time.RFC1123)` are parameters; the two `time.Now()`
 * readings `ToModel` takes are the `createdAt` and `updatedAt` parameters.
 */
module ApiDto {
  import opened Wrappers
  import opened Domain
  import opened Validator

  datatype ProductRequest = ProductRequest(name: string, description: string, price: real, sku: string, categoryID: string)

  /** The smallest price a request may carry. */
  const MinPrice: real := 0.01

  /** The entry `Required(field, value)` adds, if any. */
  function RequiredErrors(field: string, value: string): (r: seq<ValidationError>)
    ensures |r| <= 1 && forall j | 0 <= j < |r| :: r[j].field == field
  {
    if value == "" then [ValidationError(field, field + " is required")] else []
  }

  /** The entry `ValidUUID("category_id", value)` adds, if any. */
  function CategoryErrors(value: string, parse: string -> Option<UUID>): (r: seq<ValidationError>)
    ensures |r| <= 1 && forall j | 0 <= j < |r| :: r[j].field == "category_id"
  {
    if value == "" then [ValidationError("category_id", "category_id" + " is required")]
    else if parse(value).None? then [ValidationError("category_id", "category_id" + " is not a valid uuid")]
    else []
  }

  /** The entries `Validate` adds, in the order its checks run. */
  function RequestErrors(req: ProductRequest, parse: string -> Option<UUID>, formatFloat: real -> string): seq<ValidationError> {
    RequiredErrors("name", req.name)
    + RequiredErrors("description", req.description)
    + RequiredErrors("sku", req.sku)
    + (if req.price < MinPrice then [MinValueError("price", MinPrice, formatFloat)] else [])
    + CategoryErrors(req.categoryID, parse)
  }

  /** The category ID `Validate` returns: the parsed ID, or Nil when the field is empty or unparsable. */
  function CategoryOf(req: ProductRequest, parse: string -> Option<UUID>): UUID {
    if req.categoryID != "" && parse(req.categoryID).Some? then parse(req.categoryID).value else Nil
  }

  /** `ProductRequest.Validate`. */
  method Validate(req: ProductRequest, v: Validator, parse: string -> Option<UUID>, formatFloat: real -> string) returns (categoryID: UUID)
    modifies v
    ensures v.errors == old(v.errors) + RequestErrors(req, parse, formatFloat)
    ensures categoryID == CategoryOf(req, parse)
  {
    ValidateText(req, v);
    v.MinValue("price", req.price, MinPrice, formatFloat);
    categoryID := ValidateCategory(req, v, parse);
    ghost var text := RequiredErrors("name", req.name) + RequiredErrors("description", req.description)
                      + RequiredErrors("sku", req.sku);
    ghost var price: seq<ValidationError> := if req.price < MinPrice then [MinValueError("price", MinPrice, formatFloat)] else [];
    assert old(v.errors) + text + price + CategoryErrors(req.categoryID, parse)
        == old(v.errors) + (text + price + CategoryErrors(req.categoryID, parse));
  }

  /** The category check of `Validate`. */
  method ValidateCategory(req: ProductRequest, v: Validator, parse: string -> Option<UUID>) returns (categoryID: UUID)
    modifies v
    ensures v.errors == old(v.errors) + CategoryErrors(req.categoryID, parse)
    ensures categoryID == CategoryOf(req, parse)
  {
    var ok;
    categoryID, ok := v.ValidUUID("category_id", req.categoryID, parse);
  }

  /** The three `Required` checks of `Validate`. */
  method ValidateText(req: ProductRequest, v: Validator)
    modifies v
    ensures v.errors == old(v.errors) + RequiredErrors("name", req.name) + RequiredErrors("description", req.description)
                        + RequiredErrors("sku", req.sku)
  {
    v.Required("name", req.name);
    v.Required("description", req.description);
    v.Required("sku", req.sku);
  }

  /**
   * A request adds no error exactly when name, description and SKU are non-empty, the price is at
   * least 0.01 and the category ID parses; a price below 0.01 always adds the price entry.
   */
  lemma RequestErrorsEmptyIff(req: ProductRequest, parse: string -> Option<UUID>, formatFloat: real -> string)
    ensures RequestErrors(req, parse, formatFloat) == [] <==>
              req.name != "" && req.description != "" && req.sku != "" && req.price >= MinPrice
              && req.categoryID != "" && parse(req.categoryID).Some?
    ensures req.price < MinPrice ==> MinValueError("price", MinPrice, formatFloat) in RequestErrors(req, parse, formatFloat)
  {
    var errs := RequestErrors(req, parse, formatFloat);
    if req.price < MinPrice {
      var before := RequiredErrors("name", req.name) + RequiredErrors("description", req.description)
                    + RequiredErrors("sku", req.sku);
      assert errs[|before|] == MinValueError("price", MinPrice, formatFloat);
    }
  }

  /** The position of a field in the order `Validate` checks the fields. */
  function FieldRank(field: string): int {
    if field == "name" then 0
    else if field == "description" then 1
    else if field == "sku" then 2
    else if field == "price" then 3
    else if field == "category_id" then 4
    else 5
  }

  /** The fields of `errs` appear in strictly increasing check order, so each field at most once. */
  predicate InFieldOrder(errs: seq<ValidationError>) {
    forall i, j | 0 <= i < j < |errs| :: FieldRank(errs[i].field) < FieldRank(errs[j].field)
  }

  /** Every entry of `errs` is for a field checked before position `k`. */
  predicate RanksBelow(errs: seq<ValidationError>, k: int) {
    forall i | 0 <= i < |errs| :: FieldRank(errs[i].field) < k
  }

  /** Appending at most one entry for the field at position `k` keeps the order. */
  lemma AppendInOrder(a: seq<ValidationError>, b: seq<ValidationError>, k: int)
    requires InFieldOrder(a) && RanksBelow(a, k)
    requires |b| <= 1 && forall j | 0 <= j < |b| :: FieldRank(b[j].field) == k
    ensures InFieldOrder(a + b) && RanksBelow(a + b, k + 1)
  {
    if |b| == 1 {
      assert forall i | 0 <= i < |a| :: (a + b)[i] == a[i];
      assert (a + b)[|a|] == b[0];
    } else {
      assert a + b == a;
    }
  }

  /** At most one entry, for the field at position `k`. */
  predicate Piece(e: seq<ValidationError>, k: int) {
    |e| <= 1 && forall j | 0 <= j < |e| :: FieldRank(e[j].field) == k
  }

  lemma {:induction false} PiecesInOrder(e1: seq<ValidationError>, e2: seq<ValidationError>, e3: seq<ValidationError>,
                                         e4: seq<ValidationError>, e5: seq<ValidationError>)
    requires Piece(e1, 0) && Piece(e2, 1) && Piece(e3, 2) && Piece(e4, 3) && Piece(e5, 4)
    ensures InFieldOrder(e1 + e2 + e3 + e4 + e5)
  {
    assert [] + e1 == e1;
    AppendInOrder([], e1, 0);
    AppendInOrder(e1, e2, 1);
    AppendInOrder(e1 + e2, e3, 2);
    AppendInOrder(e1 + e2 + e3, e4, 3);
    AppendInOrder(e1 + e2 + e3 + e4, e5, 4);
  }

  /** Validation errors come out in the order name, description, sku, price, category_id. */
  lemma RequestErrorsInFieldOrder(req: ProductRequest, parse: string -> Option<UUID>, formatFloat: real -> string)
    ensures InFieldOrder(RequestErrors(req, parse, formatFloat))
  {
    var e4: seq<ValidationError> := if req.price < MinPrice then [MinValueError("price", MinPrice, formatFloat)] else [];
    assert FieldRank("name") == 0 && FieldRank("description") == 1 && FieldRank("sku") == 2;
    assert FieldRank("price") == 3 && FieldRank("category_id") == 4;
    PiecesInOrder(RequiredErrors("name", req.name), RequiredErrors("description", req.description),
                  RequiredErrors("sku", req.sku), e4, CategoryErrors(req.categoryID, parse));
  }

  /**
   * `ToModel`: fails exactly when the category ID does not parse; otherwise a new product with the
   * request's name, description, price, SKU and category, a Nil ID, and both timestamps set.
   */
  method ToModel(req: ProductRequest, parse: string -> Option<UUID>, createdAt: Instant, updatedAt: Instant)
    returns (r: Option<Product>)
    ensures r.None? <==> parse(req.categoryID).None?
    ensures r.Some? ==> fresh(r.value)
    ensures r.Some? ==>
              && r.value.id == Nil && r.value.name == req.name && r.value.description == req.description
              && r.value.price == req.price && r.value.sku == req.sku
              && r.value.categoryID == parse(req.categoryID).value
              && r.value.createdAt == createdAt && r.value.updatedAt == updatedAt
  {
    var categoryID := parse(req.categoryID);
    if categoryID.None? {
      return None;
    }
    var p := new Product(Nil, req.name, req.description, req.price, req.sku, categoryID.value, createdAt, updatedAt);
    r := Some(p);
  }

  datatype ProductResponse = ProductResponse(
    id: string, name: string, description: string, price: real,
    sku: string, categoryID: string, createdAt: string, updatedAt: string)

  /**
   * `ProductResponseFromModel`: every field of the product, the IDs printed by `uuidText` and the
   * timestamps by `formatTime`.
   */
  function ProductResponseFromModel(p: Product, uuidText: UUID -> string, formatTime: Instant -> string): (r: ProductResponse)
    reads p
    ensures r.id == uuidText(p.id) && r.categoryID == uuidText(p.categoryID)
    ensures r.name == p.name && r.description == p.description && r.price == p.price && r.sku == p.sku
    ensures r.createdAt == formatTime(p.createdAt) && r.updatedAt == formatTime(p.updatedAt)
  {
    ProductResponse(uuidText(p.id), p.name, p.description, p.price, p.sku, uuidText(p.categoryID),
                    formatTime(p.createdAt), formatTime(p.updatedAt))
  }
}
