/** The pause button: the only message the client sends to the server. */
module Interaction {
  import opened Wrappers
  import Socket

  /** The client-originated messages; `pause/resume` is the only one. */
  datatype VisualizationMessage = PauseResume

  /** The JSON text of a message, as `JSON.stringify` writes it. */
  function Serialize(m: VisualizationMessage): (text: string)
    ensures |text| > 0 && text[0] == '{' && text[|text| - 1] == '}'
  {
    match m
    case PauseResume => "{\"interaction\":\"pause/resume\"}"
  }

  /**
   * The messages one click sends, given the ready state of the module-level
   * socket (`None` when it is null): one `pause/resume` message when the
   * socket is OPEN, nothing otherwise.
   */
  function OnPauseClick(socketState: Option<Socket.ReadyState>): (sent: seq<string>)
    ensures |sent| <= 1
    ensures sent != [] <==> socketState == Some(Socket.ReadyState.Open)
    ensures forall k :: 0 <= k < |sent| ==> sent[k] == Serialize(PauseResume)
  {
    if socketState == Some(Socket.ReadyState.Open) then [Serialize(PauseResume)] else []
  }

  /** A click on the running client: sends only while its module-level socket is OPEN. */
  function ClickOn(client: Socket.SocketClient): (sent: seq<string>)
    reads client
    requires client.Valid()
    ensures sent != [] <==> client.socket.Some? && client.conns[client.socket.value].state == Socket.ReadyState.Open
    ensures |sent| <= 1
  {
    OnPauseClick(client.ModuleSocketState())
  }
}
