/** A nullable column or input field: `None` is SQL / JavaScript `null`. */
module Nullable {

  datatype Option<T> = None | Some(value: T)

}
