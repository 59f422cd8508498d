/** The optional value of the source's `std::optional` and null-able `shared_ptr`. */
module Options {
  datatype Option<+T> = None | Some(value: T)
}
