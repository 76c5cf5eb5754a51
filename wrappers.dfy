/** The optional value used for nullable state (`User | null`, `CheckoutData | null`). */
module Wrappers {

  datatype Option<+T> = None | Some(value: T)
}
