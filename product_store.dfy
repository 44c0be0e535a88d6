/** src/features/products/stores/useProductStore.ts: the product modal and the per-product view colour. */
module ProductStore {
  import opened Wrappers
  import opened Catalog

  class ProductStore {
    var selectedProduct: Option<Product>
    var isModalOpen: bool
    /** Colour chosen in the 360-degree view, by product id. */
    var selectedViewColorByProductId: map<string, string>

    /** The store as created: nothing selected, modal closed, no colours chosen. */
    constructor ()
      ensures selectedProduct.None? && !isModalOpen && selectedViewColorByProductId == map[]
    {
      selectedProduct := None;
      isModalOpen := false;
      selectedViewColorByProductId := map[];
    }

    /** `openModal(product)`: shows the product; the colour map is untouched. */
    method OpenModal(product: Product)
      modifies this`selectedProduct, this`isModalOpen
      ensures selectedProduct == Some(product) && isModalOpen
    {
      selectedProduct := Some(product);
      isModalOpen := true;
    }

    /** `closeModal`: hides the modal but keeps the product for the closing animation. */
    method CloseModal()
      modifies this`isModalOpen
      ensures !isModalOpen
    {
      isModalOpen := false;
    }

    /** `clearProduct`: forgets the product; whether the modal is open is untouched. */
    method ClearProduct()
      modifies this`selectedProduct
      ensures selectedProduct.None?
    {
      selectedProduct := None;
    }

    /** `setSelectedViewColor(productId, color)`: one entry written, every other kept. */
    method SetSelectedViewColor(productId: string, color: string)
      modifies this`selectedViewColorByProductId
      ensures productId in selectedViewColorByProductId
      ensures selectedViewColorByProductId[productId] == color
      ensures selectedViewColorByProductId.Keys == old(selectedViewColorByProductId).Keys + {productId}
      ensures forall k :: k in old(selectedViewColorByProductId) && k != productId ==>
                selectedViewColorByProductId[k] == old(selectedViewColorByProductId)[k]
    {
      selectedViewColorByProductId := selectedViewColorByProductId[productId := color];
    }

    /** Two writes for the same product: the last one wins. */
    method RecolorTwice(productId: string, first: string, second: string)
      modifies this`selectedViewColorByProductId
      ensures selectedViewColorByProductId == old(selectedViewColorByProductId)[productId := second]
    {
      SetSelectedViewColor(productId, first);
      SetSelectedViewColor(productId, second);
    }
  }
}
