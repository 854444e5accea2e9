/**
 * The `options` object the front end posts: option name to option value.
 * A missing key reads as `undefined`.
 */
module Options {
  import opened Wrappers

  type OptionMap = map<string, string>

  /** `options[key]`. */
  function Get(o: OptionMap, key: string): Option<string> {
    if key in o then Some(o[key]) else None
  }

  /** JavaScript truthiness of an option value: present and not the empty string. */
  predicate Truthy(v: Option<string>) {
    v.Some? && v.value != ""
  }

  /** `${v}` in a template literal: the value itself, or the text `undefined`. */
  function Interpolate(v: Option<string>): string {
    match v
    case Some(s) => s
    case None => "undefined"
  }

  /** `options.key === literal`. */
  predicate StrictEquals(o: OptionMap, key: string, literal: string) {
    Get(o, key) == Some(literal)
  }
}
