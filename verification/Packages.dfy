/** The values that travel between the server and its clients (Common/Serialize/Serialize.proto). */
module Packages {
  datatype Option<+T> = None | Some(value: T)

  datatype Colour = Colour(r: int, g: int, b: int, a: int)

  datatype DrawItem =
    | Nothing
    | Circle(x: int, y: int, radius: int, filled: bool, colour: Colour)
    | Line(x: int, y: int, xTo: int, yTo: int, colour: Colour)
    | Rectangle(x: int, y: int, width: int, height: int, filled: bool, colour: Colour)
    | Text(x: int, y: int, text: string, colour: Colour)

  datatype DrawData = DrawData(userId: int, drawId: int, item: DrawItem)

  /** A package: its message type together with the part of the payload that the type selects. */
  datatype Package =
    | Invalid
    | Error(text: string)
    | Insert(data: DrawData)
    | Remove(id: int)
    | Edit(id: int, data: DrawData)
    | Bulk(items: seq<DrawData>)
    | Clear(user: int)
    | Undo(user: int)
    | Generic(text: string)

  /** The user id that `clear` reads as "every user". */
  const EVERYONE := -1
}
