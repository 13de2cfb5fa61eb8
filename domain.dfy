/**
 * The product domain (services/product-service/internal/domain): identifiers, the domain errors,
 * and the `Product` entity whose price update is guarded.
 *
 * UUIDs are natural numbers with `Nil` = 0 (the all-zero UUID); instants are opaque clock readings
 * that the caller supplies in place of `time.Now()`; `Money` is a real number.
 */
module Domain {
  import opened Wrappers

  type UUID = nat
  const Nil: UUID := 0

  type Instant = int

  /** The domain's sentinel errors, other errors, and errors wrapped with context (`fmt.Errorf("...: %w", err)`). */
  datatype Error =
    | InvalidPrice
    | InvalidProduct
    | ProductNotFound
    | InvalidCategory
    | Failure(text: string)
    | Wrapped(context: string, cause: Error)

  /** `err.Error()`. */
  function ErrorText(e: Error): string {
    match e
    case InvalidPrice => "invalid price"
    case InvalidProduct => "invalid product"
    case ProductNotFound => "product not found"
    case InvalidCategory => "invalid category"
    case Failure(t) => t
    case Wrapped(c, inner) => c + ": " + ErrorText(inner)
  }

  /** The chain `errors.Unwrap` walks: the error itself, then each error it wraps. */
  function Chain(e: Error): (c: seq<Error>)
    ensures |c| >= 1 && c[0] == e
  {
    match e
    case Wrapped(_, inner) => [e] + Chain(inner)
    case _ => [e]
  }

  /** `errors.Is(err, target)` for comparable errors: `target` is `err` or one of the errors it wraps. */
  function Is(err: Error, target: Error): bool {
    err == target || (err.Wrapped? && Is(err.cause, target))
  }

  /** `Is` holds exactly when `target` occurs in the unwrap chain. */
  lemma {:induction false} IsIffInChain(err: Error, target: Error)
    ensures Is(err, target) <==> target in Chain(err)
  {
    if err.Wrapped? {
      IsIffInChain(err.cause, target);
      assert Chain(err) == [err] + Chain(err.cause);
    }
  }

  class Product {
    var id: UUID
    var name: string
    var description: string
    var price: real
    var sku: string
    var categoryID: UUID
    var createdAt: Instant
    var updatedAt: Instant

    constructor (id: UUID, name: string, description: string, price: real, sku: string,
                 categoryID: UUID, createdAt: Instant, updatedAt: Instant)
      ensures this.id == id && this.name == name && this.description == description
      ensures this.price == price && this.sku == sku && this.categoryID == categoryID
      ensures this.createdAt == createdAt && this.updatedAt == updatedAt
    {
      this.id := id;
      this.name := name;
      this.description := description;
      this.price := price;
      this.sku := sku;
      this.categoryID := categoryID;
      this.createdAt := createdAt;
      this.updatedAt := updatedAt;
    }

    /**
     * `UpdatePrice` at instant `now`. A negative price is refused with `ErrInvalidPrice` and
     * changes nothing; any other price, zero included, is stored and refreshes `updatedAt`.
     * No other field ever changes.
     */
    method UpdatePrice(newPrice: real, now: Instant) returns (err: Option<Error>)
      modifies this
      ensures newPrice < 0.0 ==> err == Some(InvalidPrice) && price == old(price) && updatedAt == old(updatedAt)
      ensures newPrice >= 0.0 ==> err == None && price == newPrice && updatedAt == now
      ensures id == old(id) && name == old(name) && description == old(description)
      ensures sku == old(sku) && categoryID == old(categoryID) && createdAt == old(createdAt)
    {
      if newPrice < 0.0 {
        return Some(InvalidPrice);
      }
      price := newPrice;
      updatedAt := now;
      err := None;
    }
  }
}
