/** The whole state of a mounted view (solver-result state, the socket and
    the messages transmitted so far) and its reaction to each event: socket
    events, user actions and mounting and unmounting of the view. */
module Session {
  import opened Wrappers
  import opened Geometry
  import opened Protocol
  import opened Scene

  /** The view's socket: none yet, or one in one of the four ready states. */
  datatype Conn = NoSocket | Connecting | Open | Closing | Closed

  /** The state of a mounted view. */
  datatype ViewState = ViewState(view: View, conn: Conn, outbox: seq<Request>)

  const Initial := ViewState(InitialView, NoSocket, [])

  /** Mounting the view creates a socket, which starts out connecting. */
  function Mount(m: ViewState): (r: ViewState)
    ensures r.conn == Connecting
    ensures r.view == m.view && r.outbox == m.outbox
  {
    m.(conn := Connecting)
  }

  /** The socket finishes its opening handshake; the handler itself only logs. */
  function SocketOpen(m: ViewState): (r: ViewState)
    ensures m.conn == Connecting ==> r.conn == Open
    ensures m.conn != Connecting ==> r.conn == m.conn
    ensures r.view == m.view && r.outbox == m.outbox
  {
    if m.conn == Connecting then m.(conn := Open) else m
  }

  /** The socket is closed by the transport; the handler itself only logs. */
  function SocketClose(m: ViewState): (r: ViewState)
    ensures m.conn != NoSocket ==> r.conn == Closed
    ensures m.conn == NoSocket ==> r.conn == NoSocket
    ensures r.view == m.view && r.outbox == m.outbox
  {
    if m.conn == NoSocket then m else m.(conn := Closed)
  }

  /** A decoded reply arrives. */
  function Receive(m: ViewState, msg: Reply): (r: ViewState)
    ensures r.view == ApplyReply(m.view, msg)
    ensures r.conn == m.conn && r.outbox == m.outbox
  {
    m.(view := ApplyReply(m.view, msg))
  }

  /** The transport reports an error: the fixed error message is shown and nothing
      else changes. */
  function TransportError(m: ViewState): (r: ViewState)
    ensures r.view.error == Some(ConnectionErrorText)
    ensures r.view.theta1 == m.view.theta1 && r.view.theta2 == m.view.theta2 &&
            r.view.theta3 == m.view.theta3 && r.view.coords == m.view.coords
    ensures r.conn == m.conn && r.outbox == m.outbox
  {
    m.(view := m.view.(error := Some(ConnectionErrorText)))
  }

  /** The user asks for a solution: exactly one request is transmitted when the socket
      is open, and otherwise nothing is sent and the not-connected message is shown. */
  function Send(m: ViewState, target: Point3, arm: int, elbow: int): (r: ViewState)
    ensures r.conn == m.conn
    ensures m.conn == Open ==>
      r.outbox == m.outbox + [Request(target.x, target.y, target.z, arm, elbow)] &&
      r.view == m.view
    ensures m.conn != Open ==>
      r.outbox == m.outbox &&
      r.view == m.view.(error := Some(NotConnectedText))
    ensures |r.outbox| == |m.outbox| + 1 <==> m.conn == Open
  {
    if m.conn == Open then
      m.(outbox := m.outbox + [Request(target.x, target.y, target.z, arm, elbow)])
    else
      m.(view := m.view.(error := Some(NotConnectedText)))
  }

  /** Unmounting the view closes the socket only when it is open (the socket then
      moves to closing); in every other state nothing happens. */
  function Teardown(m: ViewState): (r: ViewState)
    ensures m.conn == Open ==> r == m.(conn := Closing)
    ensures m.conn != Open ==> r == m
  {
    if m.conn == Open then m.(conn := Closing) else m
  }

  /** The events the view reacts to, one at a time. */
  datatype Event =
    | Mounted
    | SocketOpened
    | Message(msg: Reply)
    | SocketError
    | SocketClosed
    | SendClicked(target: Point3, arm: int, elbow: int)
    | Unmounted

  function Step(m: ViewState, e: Event): ViewState
  {
    match e
    case Mounted => Mount(m)
    case SocketOpened => SocketOpen(m)
    case Message(msg) => Receive(m, msg)
    case SocketError => TransportError(m)
    case SocketClosed => SocketClose(m)
    case SendClicked(target, arm, elbow) => Send(m, target, arm, elbow)
    case Unmounted => Teardown(m)
  }

  /** The state after handling `es` in order, starting from `m`. */
  function Run(m: ViewState, es: seq<Event>): ViewState
    decreases |es|
  {
    if es == [] then m else Run(Step(m, es[0]), es[1..])
  }

  /** Every event keeps the view consistent. */
  lemma StepKeepsConsistent(m: ViewState, e: Event)
    requires Consistent(m.view)
    ensures Consistent(Step(m, e).view)
  {
    if e.Message? {
      ApplyReplyKeepsConsistent(m.view, e.msg);
    }
  }

  /** Any sequence of events keeps the view consistent. */
  lemma {:induction false} RunKeepsConsistent(m: ViewState, es: seq<Event>)
    requires Consistent(m.view)
    ensures Consistent(Run(m, es).view)
    decreases |es|
  {
    if es != [] {
      StepKeepsConsistent(m, es[0]);
      RunKeepsConsistent(Step(m, es[0]), es[1..]);
    }
  }

  /** From the initial state, the chain is drawn exactly when the angle panel is
      shown, whatever events have happened. */
  lemma ChainDrawnWithPanelAfterRun(es: seq<Event>)
    ensures DrawChain(Run(Initial, es).view.coords).Chain? <==> Panel(Run(Initial, es).view).Some?
  {
    RunKeepsConsistent(Initial, es);
    ChainDrawnWithPanel(Run(Initial, es).view);
  }

  /** Transmitted requests are never taken back: the outbox only grows. */
  lemma {:induction false} RunOutboxGrows(m: ViewState, es: seq<Event>)
    ensures m.outbox <= Run(m, es).outbox
    decreases |es|
  {
    if es != [] {
      var m' := Step(m, es[0]);
      assert m.outbox <= m'.outbox;
      RunOutboxGrows(m', es[1..]);
    }
  }

  /** A socket that never reports being open never transmits anything. */
  lemma {:induction false} NoTransmitUntilOpened(m: ViewState, es: seq<Event>)
    requires m.conn != Open
    requires forall i :: 0 <= i < |es| ==> !es[i].SocketOpened?
    ensures Run(m, es).outbox == m.outbox
    ensures Run(m, es).conn != Open
    decreases |es|
  {
    if es != [] {
      var m' := Step(m, es[0]);
      assert m'.outbox == m.outbox && m'.conn != Open;
      NoTransmitUntilOpened(m', es[1..]);
    }
  }

  /** Unmounting while the socket is still connecting does not close it. */
  lemma TeardownLeavesConnectingSocket(m: ViewState)
    requires m.conn == Connecting
    ensures Step(m, Unmounted).conn == Connecting
  {
  }
}
