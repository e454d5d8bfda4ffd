/** Values shared by the server and the client: identifiers, points and an optional value. */
module Common {

  /** A socket.io connection id, assigned by the server. */
  type SocketId = string

  /** A room id as the client typed it or as it is stored. */
  type RoomId = string

  /** A CSS colour string such as "#000". */
  type Colour = string

  /** A canvas position; the source's floating-point coordinates are kept opaque. */
  datatype Point = Point(x: int, y: int)

  /** A JavaScript value that may be absent (undefined or null). */
  datatype Option<+T> = None | Some(value: T)

  /** JavaScript truthiness of a string-valued field: undefined, null and "" are falsy. */
  predicate Truthy(s: Option<string>)
  {
    s.Some? && s.value != ""
  }
}
