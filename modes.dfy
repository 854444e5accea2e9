/** The prompt modes of the application and their wire names. */
module Modes {
  import opened Wrappers

  datatype PromptMode = Text | Image | Video | Audio | Code

  /** The string value of each enum member, as sent in a request body. */
  function Name(m: PromptMode): string {
    match m
    case Text => "Text"
    case Image => "Image"
    case Video => "Video"
    case Audio => "Audio"
    case Code => "Code"
  }

  /** The mode a request's `mode` string selects in a `switch`, or None for its `default` case. */
  function Parse(s: string): (r: Option<PromptMode>)
    ensures r.Some? ==> Name(r.value) == s
    ensures r.None? ==> forall m: PromptMode :: Name(m) != s
  {
    if s == "Text" then Some(Text)
    else if s == "Image" then Some(Image)
    else if s == "Video" then Some(Video)
    else if s == "Audio" then Some(Audio)
    else if s == "Code" then Some(Code)
    else None
  }

  /** Every mode is recognised under its own name. */
  lemma ParseName(m: PromptMode)
    ensures Parse(Name(m)) == Some(m)
  {
  }
}
