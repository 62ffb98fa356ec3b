/** `Uri.TryCreate(text, UriKind.Absolute, out uri)` followed by `uri.Scheme`
    is foreign parsing; the model takes it as a parameter. */
module Uris {
  import opened Wrappers

  /** The scheme of `text` read as an absolute URI, or null when `TryCreate`
      rejects it. */
  type UriParser = string -> Option<string>
}
