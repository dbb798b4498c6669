/** `DomainModelDescription`: a holder for one replaceable description text. */
module DescriptionHolder {
  import opened Wrappers

  class DomainModelDescription {
    /** The held text; `None` until one is set. */
    var text: Option<string>

    /** The initial text is the argument (the source's default argument is `None`). */
    constructor (initial: Option<string>)
      ensures text == initial
    {
      text := initial;
    }

    /** Replaces the held text. */
    method SetText(t: string)
      modifies this
      ensures text == Some(t)
    {
      text := Some(t);
    }

    /** Despite its name, also replaces the held text rather than appending to it. */
    method AddText(t: string)
      modifies this
      ensures text == Some(t)
    {
      text := Some(t);
    }

    /** The held text; the holder is not changed. */
    method GetText() returns (t: Option<string>)
      ensures t == text
    {
      t := text;
    }
  }

  /** After `SetText(t)`, `GetText()` answers `t`; reading changes nothing. */
  method SetThenGet(holder: DomainModelDescription, t: string) returns (got: Option<string>)
    modifies holder
    ensures got == Some(t) && holder.text == Some(t)
  {
    holder.SetText(t);
    got := holder.GetText();
  }
}
