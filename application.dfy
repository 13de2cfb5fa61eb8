/**
 * The application service (services/product-service/internal/application/product_service.go) and
 * the repository it is given.
 *
 * The repository is an out-of-process store; the model describes it by fixed answers (functions of
 * the arguments) and records every call in `calls`. Each answer is either the value or the error
 * Go returns beside a nil or zero value. `uuid.New()` is the `newID` parameter.
 */
module Application {
  import opened Wrappers
  import opened Domain

  datatype Call =
    | GetByID(id: UUID)
    | CategoryExists(id: UUID)
    | GetAll(limit: int, offset: int)
    | Create(product: Product, id: UUID)
    | Update(product: Product)
    | Delete(id: UUID)
    | GetByCategory(categoryID: UUID)
    | Search(query: string)

  /** A product page and the total number of products. */
  datatype Page = Page(items: seq<Product>, total: int)

  class Repository {
    const byID: UUID -> Result<Product, Error>
    const categoryExists: UUID -> Result<bool, Error>
    const all: (int, int) -> Result<Page, Error>
    const createErr: Option<Error>
    const updateErr: Option<Error>
    const deleteErr: Option<Error>
    const byCategory: UUID -> Result<seq<Product>, Error>
    const search: string -> Result<seq<Product>, Error>
    var calls: seq<Call>

    constructor (byID: UUID -> Result<Product, Error>, categoryExists: UUID -> Result<bool, Error>,
                 all: (int, int) -> Result<Page, Error>, createErr: Option<Error>, updateErr: Option<Error>,
                 deleteErr: Option<Error>, byCategory: UUID -> Result<seq<Product>, Error>,
                 search: string -> Result<seq<Product>, Error>)
      ensures this.byID == byID && this.categoryExists == categoryExists && this.all == all
      ensures this.createErr == createErr && this.updateErr == updateErr && this.deleteErr == deleteErr
      ensures this.byCategory == byCategory && this.search == search && calls == []
    {
      this.byID := byID;
      this.categoryExists := categoryExists;
      this.all := all;
      this.createErr := createErr;
      this.updateErr := updateErr;
      this.deleteErr := deleteErr;
      this.byCategory := byCategory;
      this.search := search;
      calls := [];
    }

    method Record(c: Call)
      modifies this
      ensures calls == old(calls) + [c]
    {
      calls := calls + [c];
    }
  }

  class ProductService {
    const repo: Repository

    /** `NewProductService` (the logger it is also given is never used). */
    constructor (repo: Repository)
      ensures this.repo == repo
    {
      this.repo := repo;
    }

    method GetByID(id: UUID) returns (r: Result<Product, Error>)
      modifies repo
      ensures repo.calls == old(repo.calls) + [Call.GetByID(id)] && r == repo.byID(id)
    {
      repo.Record(Call.GetByID(id));
      r := repo.byID(id);
    }

    method CategoryExists(id: UUID) returns (r: Result<bool, Error>)
      modifies repo
      ensures repo.calls == old(repo.calls) + [Call.CategoryExists(id)] && r == repo.categoryExists(id)
    {
      repo.Record(Call.CategoryExists(id));
      r := repo.categoryExists(id);
    }

    method GetAll(limit: int, offset: int) returns (r: Result<Page, Error>)
      modifies repo
      ensures repo.calls == old(repo.calls) + [Call.GetAll(limit, offset)] && r == repo.all(limit, offset)
    {
      repo.Record(Call.GetAll(limit, offset));
      r := repo.all(limit, offset);
    }

    /**
     * `Create`. A product without a name is refused with `ErrInvalidProduct` before the
     * repository is called. Otherwise a Nil ID is replaced by the new ID, a set ID is kept, and the
     * repository's answer is returned. No other field of the product changes.
     */
    method Create(product: Product, newID: UUID) returns (err: Option<Error>)
      requires newID != Nil
      modifies repo, product
      ensures product.name == "" ==>
                err == Some(InvalidProduct) && repo.calls == old(repo.calls) && product.id == old(product.id)
      ensures product.name != "" ==>
                && product.id == (if old(product.id) == Nil then newID else old(product.id))
                && product.id != Nil
                && repo.calls == old(repo.calls) + [Call.Create(product, product.id)]
                && err == repo.createErr
      ensures product.name == old(product.name) && product.description == old(product.description)
      ensures product.price == old(product.price) && product.sku == old(product.sku)
      ensures product.categoryID == old(product.categoryID)
      ensures product.createdAt == old(product.createdAt) && product.updatedAt == old(product.updatedAt)
    {
      if product.name == "" {
        return Some(InvalidProduct);
      }
      if product.id == Nil {
        product.id := newID;
      }
      repo.Record(Call.Create(product, product.id));
      err := repo.createErr;
    }

    method Update(product: Product) returns (err: Option<Error>)
      modifies repo
      ensures repo.calls == old(repo.calls) + [Call.Update(product)] && err == repo.updateErr
    {
      repo.Record(Call.Update(product));
      err := repo.updateErr;
    }

    method Delete(id: UUID) returns (err: Option<Error>)
      modifies repo
      ensures repo.calls == old(repo.calls) + [Call.Delete(id)] && err == repo.deleteErr
    {
      repo.Record(Call.Delete(id));
      err := repo.deleteErr;
    }

    method GetByCategory(categoryID: UUID) returns (r: Result<seq<Product>, Error>)
      modifies repo
      ensures repo.calls == old(repo.calls) + [Call.GetByCategory(categoryID)] && r == repo.byCategory(categoryID)
    {
      repo.Record(Call.GetByCategory(categoryID));
      r := repo.byCategory(categoryID);
    }

    method Search(query: string) returns (r: Result<seq<Product>, Error>)
      modifies repo
      ensures repo.calls == old(repo.calls) + [Call.Search(query)] && r == repo.search(query)
    {
      repo.Record(Call.Search(query));
      r := repo.search(query);
    }
  }
}
