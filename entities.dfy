/** The values the tactical board is made of. */
module Entities {
  import opened Wrappers
  import opened Geometry

  datatype Team = A | B

  /** Shirt number 1 is the goalkeeper, every other player is an outfield player. */
  datatype Role = Goalkeeper | Outfield

  datatype Player = Player(
    id: string,
    team: Team,
    role: Role,
    number: int,
    name: string,
    x: real,
    y: real,
    visible: bool,
    photo: Option<string>)
  {
    function Pos(): Point { Point(x, y) }
  }

  /** The kinds of drawing; `TextLabel` is the text annotation. */
  datatype Kind = Line | Arrow | CurvedArrow | Rect | Circle | Triangle | Zone | TextLabel

  /** The active tool. `Pen(TextLabel)` is the text tool, any other pen sketches a shape. */
  datatype Tool = Select | Eraser | Pen(kind: Kind)

  /**
   * A committed annotation. `points` holds the triangle's vertices or the curved
   * arrow's control point and is empty for the other kinds; `text` is empty except
   * for text labels.
   */
  datatype Drawing = Drawing(
    id: string,
    kind: Kind,
    start: Point,
    end: Point,
    color: string,
    filled: bool,
    strokeWidth: real,
    points: seq<Point>,
    text: string)

  /** The shape being sketched, shown as a live preview until release. */
  datatype Preview = Preview(start: Point, end: Point, kind: Kind, color: string, filled: bool)

  /** A copy of the board taken before a mutating gesture, used only by undo. */
  datatype Snapshot = Snapshot(players: seq<Player>, ball: Point, drawings: seq<Drawing>)

  /** What the player/ball hit test found under the pointer. */
  datatype Hit = PlayerHit(id: string) | BallHit
}
