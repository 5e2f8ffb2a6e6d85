/**
 * The string constants the backlight module declares: the three format tags
 * it can render and the two scroll commands it accepts.
 */
module BacklightTokens {

  /** Format tag for the text label. */
  const TagLabel: string := "<label>"
  /** Format tag for the progress bar. */
  const TagBar: string := "<bar>"
  /** Format tag for the ramp icon. */
  const TagRamp: string := "<ramp>"

  /** Command bound to scrolling up: raise the brightness. */
  const EventScrollUp: string := "backlight+"
  /** Command bound to scrolling down: lower the brightness. */
  const EventScrollDown: string := "backlight-"

  /** The closed set of format elements the module can render. */
  datatype Tag = Label | Bar | Ramp

  /** The two brightness commands. */
  datatype Command = Increase | Decrease

  function TagName(t: Tag): string
  {
    match t
    case Label => TagLabel
    case Bar => TagBar
    case Ramp => TagRamp
  }

  function CommandName(c: Command): string
  {
    match c
    case Increase => EventScrollUp
    case Decrease => EventScrollDown
  }

  /** No two tags share a string, so a tag string names at most one element. */
  lemma TagNamesDistinct(t: Tag, u: Tag)
    ensures TagName(t) == TagName(u) ==> t == u
  {
    if t != u {
      assert TagName(t)[1] != TagName(u)[1];
    }
  }

  /** The two command strings differ, so a command selects at most one branch. */
  lemma CommandNamesDistinct(c: Command, d: Command)
    ensures CommandName(c) == CommandName(d) ==> c == d
  {
    if c != d {
      assert CommandName(c)[9] != CommandName(d)[9];
    }
  }
}
