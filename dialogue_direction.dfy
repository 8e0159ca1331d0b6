/** Vestige.Engine.Dialogue.DialogueDirection: which way a speech bubble or a character faces,
    or `None` when the element is not present. */
module DialogueDirections {
  import opened Wrappers

  datatype DialogueDirection = None | Left | Right
  {
    /** The enum member's declared name. */
    function Name(): string
    {
      match this
      case None => "None"
      case Left => "Left"
      case Right => "Right"
    }
  }

  /** Enum.TryParse<DialogueDirection> restricted to exact, case-sensitive member names. */
  function TryParse(s: string): (r: Option<DialogueDirection>)
    ensures r.Some? ==> r.value.Name() == s
    ensures r.None? ==> s != "None" && s != "Left" && s != "Right"
  {
    if s == "None" then Some(DialogueDirection.None)
    else if s == "Left" then Some(Left)
    else if s == "Right" then Some(Right)
    else Option.None
  }

  /** Parsing a member's name gives that member back. */
  lemma TryParseName(d: DialogueDirection)
    ensures TryParse(d.Name()) == Some(d)
  {
  }
}
