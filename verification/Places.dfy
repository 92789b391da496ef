/** Where rows belong: an outlet of a business. */
module Places {

  datatype Place = Place(business: int, outlet: int)
}
