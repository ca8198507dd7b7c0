/** HomeComponent (src/app/components/home/home.component.ts): the public product catalog. */
module Home {
  import opened Models
  import opened Http
  import ProductService

  const LoadFailedMessage := "Erro ao carregar produtos."

  class HomeComponent {
    var products: seq<Product>
    var loading: bool
    var errorMessage: string
    /** The requests issued, oldest first. */
    var sent: seq<Call>

    constructor ()
      ensures products == [] && loading && errorMessage == "" && sent == []
    {
      products := [];
      loading := true;
      errorMessage := "";
      sent := [];
    }

    method NgOnInit()
      modifies this
      ensures loading && sent == old(sent) + [ProductService.GetAllProducts()]
      ensures products == old(products) && errorMessage == old(errorMessage)
    {
      LoadProducts();
    }

    /** The send step: raise the loading flag, then ask for every product. */
    method LoadProducts()
      modifies this
      ensures loading && sent == old(sent) + [ProductService.GetAllProducts()]
      ensures products == old(products) && errorMessage == old(errorMessage)
    {
      loading := true;
      sent := sent + [ProductService.GetAllProducts()];
    }

    /** A reply: the list replaces the products only when its status is "success". */
    method OnProductsReply(r: ProductResponse)
      modifies this
      ensures !loading
      ensures r.status == SuccessStatus && r.data.Many? ==> products == r.data.products
      ensures r.status == SuccessStatus && r.data.One? ==> products == [r.data.product]
      ensures r.status != SuccessStatus ==> products == old(products)
      ensures errorMessage == old(errorMessage) && sent == old(sent)
    {
      loading := false;
      if r.status == SuccessStatus {
        products := ProductList(r.data);
      }
    }

    /** A failed request: the list stays, the error is shown. */
    method OnProductsError()
      modifies this
      ensures !loading && errorMessage == LoadFailedMessage
      ensures products == old(products) && sent == old(sent)
    {
      loading := false;
      errorMessage := LoadFailedMessage;
    }
  }
}
