/** A value or an exception (futures/result.hpp:68-111). */
module Results {
  type Value(!new)
  type Exception(==, !new)

  datatype Result = Ok(value: Value) | Raised(exception: Exception)
}
