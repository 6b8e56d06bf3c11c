/** Optional values: `None` stands for a C `nullptr` or a missing property. */
module Wrappers {

  datatype Option<+T> = None | Some(value: T)

}
