/**
 * The validation finding every constraint produces: a path locating the
 * offending value, a machine-readable key and an ordered argument list.
 */
module Errors {

  /** Ordered name/value pairs, as the PHP argument array keeps them. */
  type Arguments = seq<(string, string)>

  datatype Error = Error(path: string, key: string, arguments: Arguments)
}
