/** An optional value, used for the partial conversions (std::stod, std::stoi)
    and for searches that may find nothing. */
module Wrappers {
  datatype Option<+T> = None | Some(value: T)
}
