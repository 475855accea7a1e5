/** The sales service: the sales fixture, listed whole or looked up by id. */
module Sales {
  import opened Common
  import opened Records

  /** The service holds the collection loaded at start-up; nothing changes it afterwards. */
  datatype SalesService = SalesService(sales: seq<Record>) {

    /** The loaded collection itself, same elements in the same order. */
    function FindAll(): (r: seq<Record>)
      ensures r == sales
    {
      sales
    }

    /** The first sale whose id is exactly `id`, or NotFound when there is none. */
    function FindOne(id: string): (r: Result<Record>)
      ensures r.Ok? <==> exists k :: 0 <= k < |sales| && HasId(sales[k], id)
      ensures r.Ok? ==>
        exists k :: 0 <= k < |sales| && sales[k] == r.value && HasId(r.value, id) &&
          forall j :: 0 <= j < k ==> !HasId(sales[j], id)
      ensures r.Err? ==> r.error == NotFound("Sale with ID " + id + " not found")
    {
      match FindById(sales, id)
      case None => Err(NotFound("Sale with ID " + id + " not found"))
      case Some(k) => Ok(sales[k])
    }
  }
}
