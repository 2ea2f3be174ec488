/**
 * What both clients read from pygame's event queue, and the three screens
 * of their state machine.
 */
module Events {

  /** GAME_STATE: "USERNAME", "PLAYING", "GAME_OVER". */
  datatype GameState = EnteringName | Playing | GameOver

  /** The keys the loops tell apart; Character is any other key with a character. */
  datatype Key = Return | Backspace | Escape | Space | Character(c: char) | Modifier

  /** event.unicode for a key press. */
  function Unicode(k: Key): (s: string)
    ensures |s| <= 1
    ensures k.Character? ==> s == [k.c]
    ensures k.Modifier? ==> s == ""
    ensures k.Return? ==> s == [13 as char]
  {
    match k
    case Return => [13 as char]
    case Backspace => [8 as char]
    case Escape => [27 as char]
    case Space => " "
    case Character(c) => [c]
    case Modifier => ""
  }

  datatype Event = Quit | KeyDown(key: Key)
}
