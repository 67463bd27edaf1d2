/** `StringValue`: an optional string whose getters read the empty string while it is unset.
    The same reading serves any optional text that the source keeps as a blank `String`
    until a value arrives. */
module StringValues {
  import opened Xml

  /** `get_value`, `get_value_str` and `get_value_string` alike. */
  function Get(v: Option<string>): string
  {
    if v.Some? then v.value else ""
  }
}
