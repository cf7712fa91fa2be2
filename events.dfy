/** The events the main loop consumes, and an abstract model of terminal key presses. */
module Events {

  /** The modifier set of a key press; the program compares whole sets for equality. */
  datatype Modifiers = Modifiers(shift: bool, control: bool, alt: bool, others: bool)

  const NoMods := Modifiers(false, false, false, false)
  const Shift := Modifiers(true, false, false, false)
  const Control := Modifiers(false, true, false, false)
  const Alt := Modifiers(false, false, true, false)

  datatype KeyCode =
    | Char(c: char)
    | Enter | Esc | Backspace | Delete | Tab
    | Left | Right | Up | Down | Home | End
    | OtherKey

  datatype KeyEvent = KeyEvent(mods: Modifiers, code: KeyCode)

  datatype MouseKind = ScrollUp | ScrollDown | OtherMouse

  /** Everything the main loop receives: terminal input, ticks, and what a spawned
      provider call sends back. */
  datatype Event =
    | Key(key: KeyEvent)
    | Mouse(kind: MouseKind)
    | Resize(width: nat, height: nat)
    | Tick
    | ApiChunk(text: string)
    | ApiDone
    | ApiError(message: string)
    | ToolUseRequest(response: string)
}
