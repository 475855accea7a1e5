/** The products service: the products fixture, listed whole or looked up by id. */
module Products {
  import opened Common
  import opened Records

  /** The service holds the collection loaded at start-up; nothing changes it afterwards. */
  datatype ProductsService = ProductsService(products: seq<Record>) {

    /** The loaded collection itself, same elements in the same order. */
    function FindAll(): (r: seq<Record>)
      ensures r == products
    {
      products
    }

    /** The first product whose id is exactly `id`, or NotFound when there is none. */
    function FindOne(id: string): (r: Result<Record>)
      ensures r.Ok? <==> exists k :: 0 <= k < |products| && HasId(products[k], id)
      ensures r.Ok? ==>
        exists k :: 0 <= k < |products| && products[k] == r.value && HasId(r.value, id) &&
          forall j :: 0 <= j < k ==> !HasId(products[j], id)
      ensures r.Err? ==> r.error == NotFound("Product with ID " + id + " not found")
    {
      match FindById(products, id)
      case None => Err(NotFound("Product with ID " + id + " not found"))
      case Some(k) => Ok(products[k])
    }
  }
}
