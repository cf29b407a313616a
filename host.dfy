/**
 * Library behaviour the core relies on but that is not modelled: the MD5
 * digest of message_parser.py, how Python renders a float as text
 * (`str(x)`, `f"{x}"`), and which texts `float(s)` accepts and what it
 * reads from them (`None` where it raises `ValueError`). Each is an
 * arbitrary function passed in, so every property proved holds for any
 * digest, any rendering and any parser.
 */
module Host {
  import opened Wrappers

  datatype Host = Host(
    md5: string -> string,
    floatText: real -> string,
    parseFloat: string -> Option<real>)
}
