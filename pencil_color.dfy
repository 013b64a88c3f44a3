/** The colour catalogue: the closed set of pen colours, their names and the
    angle of the colour servo that brings each pen into position. */
module PencilColors {

  datatype PencilColor = BLACK | RED | GREEN | BLUE | NONE

  /** The five names the catalogue knows, in enum order. */
  const Names: seq<string> := ["BLACK", "RED", "GREEN", "BLUE", "NONE"]

  /** The name of a colour. */
  function ToString(c: PencilColor): (s: string)
    ensures s in Names
  {
    match c
    case BLACK => "BLACK"
    case RED => "RED"
    case GREEN => "GREEN"
    case BLUE => "BLUE"
    case NONE => "NONE"
  }

  /** The colour with an exactly matching (case-sensitive) name; every
      other text falls back to NONE. */
  function FromString(s: string): (c: PencilColor)
    ensures c != NONE ==> ToString(c) == s
    ensures s !in Names ==> c == NONE
  {
    if s == "BLACK" then BLACK
    else if s == "RED" then RED
    else if s == "GREEN" then GREEN
    else if s == "BLUE" then BLUE
    else if s == "NONE" then NONE
    else NONE
  }

  /** The colour-servo angle of a colour, in degrees. */
  function ToAngle(c: PencilColor): (a: int)
    ensures 0 <= a <= 130
    ensures a == 0 <==> c == NONE
  {
    match c
    case BLACK => 90
    case RED => 50
    case GREEN => 130
    case BLUE => 90
    case NONE => 0
  }

  /** Every colour survives a trip through its name. */
  lemma NameRoundTrip(c: PencilColor)
    ensures FromString(ToString(c)) == c
  {
  }

  /** A known name survives a trip through its colour; any other text
      reads back as "NONE". */
  lemma ColorRoundTrip(s: string)
    ensures ToString(FromString(s)) == if s in Names then s else "NONE"
  {
    if s in Names {
      var i :| 0 <= i < |Names| && Names[i] == s;
      assert i == 0 || i == 1 || i == 2 || i == 3 || i == 4;
    }
  }

  /** An illustration of FromString's contract: matching is
      case-sensitive, so a name in lower case is not a colour. */
  lemma LowerCaseIsUnknown()
    ensures FromString("black") == NONE && FromString("Red") == NONE
  {
  }

  /** Two colours share a servo angle exactly when they are equal or are
      BLACK and BLUE (both at 90 degrees). */
  lemma SharedAngle(a: PencilColor, b: PencilColor)
    ensures ToAngle(a) == ToAngle(b) <==> a == b || (a in {BLACK, BLUE} && b in {BLACK, BLUE})
  {
  }
}
