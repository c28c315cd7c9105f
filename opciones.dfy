/** The usual optional value: `None` stands for JavaScript's `null`/`undefined`. */
module Opciones {

  datatype Option<+T> = None | Some(value: T)
}
