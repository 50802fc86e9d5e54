/**
 * The two collections side by side. Nothing ties a product's provider
 * reference to the provider collection: deleting a provider leaves the
 * products, and their now dangling references, as they were: every product
 * that named the deleted provider still names it.
 */
module Catalog {
  import opened Common
  import Http
  import Products
  import Providers

  method DeleteProvider(products: Products.ProductCollection, providers: Providers.ProviderCollection,
                        id: Option<string>, storeFails: bool)
    returns (res: Http.Response<Providers.Provider>)
    modifies providers
    ensures products.table == old(products.table)
    ensures res.status == 200 ==> id.Some? && id.value !in providers.table
  {
    res := providers.HandleDelete(id, storeFails);
  }
}
