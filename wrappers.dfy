/** The conventional optional value: `None` stands for JavaScript's
    `null` / `undefined` wherever the application only asks "is it there?". */
module Wrappers {

  datatype Option<+T> = None | Some(value: T)
}
