/**
 * The entry point: the three callbacks handed to `connectToSocket` and the
 * routing of every non-first frame to the command executor or to the
 * position update.
 */
module Index {
  import opened Data
  import Socket

  /** A call made into the visualization. */
  datatype Call =
    | InitializeThree(data: Frame)
    | ExecuteCommand(frame: Frame)
    | Update(frame: Frame)
    | FinalizeVisualization

  /** `updateData`: a frame with a `command` key is a command; any other frame is a position update. */
  function UpdateData(frame: Frame): (call: Call)
    ensures call.ExecuteCommand? || call.Update?
    ensures call.ExecuteCommand? <==> "command" in frame
    ensures call.frame == frame
  {
    if "command" in frame then ExecuteCommand(frame) else Update(frame)
  }

  /**
   * The visualization call caused by one callback: `initialize` and
   * `finalize` forward to the visualization, and `updateData` routes.
   */
  function Downstream(cb: Socket.Callback): (call: Call)
    ensures cb.Init? <==> call.InitializeThree?
    ensures cb.Finalize? <==> call.FinalizeVisualization?
    ensures cb.Init? ==> call.data == cb.frame
    ensures cb.DataFrame? ==> call.frame == cb.frame && (call.ExecuteCommand? <==> "command" in cb.frame)
  {
    match cb
    case Init(_, f) => InitializeThree(f)
    case DataFrame(_, f) => UpdateData(f)
    case Finalize(_) => FinalizeVisualization
  }

  /** The visualization calls caused by a sequence of callbacks, one each, in order. */
  function DownstreamAll(cbs: seq<Socket.Callback>): (calls: seq<Call>)
    ensures |calls| == |cbs|
    ensures forall k :: 0 <= k < |cbs| ==> calls[k] == Downstream(cbs[k])
  {
    if cbs == [] then [] else [Downstream(cbs[0])] + DownstreamAll(cbs[1..])
  }

  /**
   * What one session looks like to the visualization: `InitializeThree`
   * can only be its first call, `FinalizeVisualization` only its last, and
   * every call strictly between them is a command or an update chosen by
   * the frame's `command` key.
   */
  lemma SessionCalls(p: seq<Socket.Callback>)
    requires Socket.SessionShaped(p)
    ensures forall k :: 0 <= k < |p| && DownstreamAll(p)[k].InitializeThree? ==> k == 0
    ensures forall k :: 0 <= k < |p| && DownstreamAll(p)[k].FinalizeVisualization? ==> k == |p| - 1
    ensures forall k :: 0 < k < |p| - 1 ==> DownstreamAll(p)[k] == UpdateData(p[k].frame)
  {
    var calls := DownstreamAll(p);
    forall k | 0 <= k < |p|
      ensures calls[k].InitializeThree? ==> k == 0
      ensures calls[k].FinalizeVisualization? ==> k == |p| - 1
      ensures 0 < k < |p| - 1 ==> calls[k] == UpdateData(p[k].frame)
    {
      Socket.ShapeAt(p, k);
    }
  }

  /**
   * The startup call: module initialisation of the socket state, then one
   * `connectToSocket` with the three callbacks above.
   */
  method Startup(pings: seq<bool>) returns (client: Socket.SocketClient, up: bool)
    ensures fresh(client) && client.Valid()
    ensures client.trace == [] && client.pendingReconnects == 0
    ensures up <==> exists j :: 0 <= j < |pings| && pings[j]
    ensures up ==> client.socket.Some? && client.conns == map[client.socket.value := Socket.Conn(Socket.ReadyState.Connecting, false)]
    ensures !up ==> client.socket.None? && client.conns == map[]
    ensures client.connectionVisible && !client.panelVisible && !client.colorVisible
  {
    client := new Socket.SocketClient();
    var pingCount;
    up, pingCount := client.ConnectToSocket(pings);
  }
}
