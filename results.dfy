/** Outcomes of the operations of the property tool that can fail. */
module Results {

  datatype Option<+T> = None | Some(value: T)

  /** What the original code throws, by cause. */
  datatype Error =
    | CountryNotFound(name: string)    // `new Error("No country with name ...")`
    | SubregionNotFound(name: string)  // `throw console.error(...)` in the subregion lookup
    | MissingBlockData                 // a Block built from neither a tile nor a catalog entry
    | TypeError                        // a property read on `undefined` or `null`

  datatype Result<+T> = Ok(value: T) | Err(error: Error)
}
