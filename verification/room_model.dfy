/** The persisted records: a room document and the drawing commands in its log. */
module RoomModel {
  import opened Common

  /**
   * The payload of a drawing command. The schema types it as free-form data;
   * the canvas reads these six fields from it.
   */
  datatype CmdData = CmdData(socketId: SocketId, x: int, y: int, colour: Colour, strokeWidth: int, tool: string)

  /** One entry of a room's drawing log: a kind ("stroke-start", "stroke-move", "stroke-end", "clear"), its data and a time stamp. */
  datatype DrawingCmd = DrawingCmd(kind: string, data: CmdData, timestamp: int)

  /** A room document; times are milliseconds since the epoch. */
  datatype Room = Room(roomId: RoomId, createdAt: int, lastActivity: int, drawingData: seq<DrawingCmd>)
}
