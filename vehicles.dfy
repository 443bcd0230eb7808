/** A row of the `vehicles` table as the pages load it. */
module Vehicles {
  import opened Wrappers

  datatype Vehicle = Vehicle(
    id: string,
    name: string,
    model: string,
    brand: string,
    year: int,
    km: int,
    price: real,
    description: Option<string>,
    imageUrl: Option<string>)
}
