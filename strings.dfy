/** The string helper both the card-number formatter and the avatar initials rely on. */
module Strings {

  /** `parts.join(" ")`: the pieces with one space between neighbours; no pieces give the empty string. */
  function JoinWithSpaces(parts: seq<string>): string
    decreases |parts|
  {
    if parts == [] then []
    else if |parts| == 1 then parts[0]
    else parts[0] + " " + JoinWithSpaces(parts[1..])
  }
}
