/** The view component itself: its state slots are fields that its event handlers
    and its send action update in place. */
module Client {
  import opened Wrappers
  import opened Geometry
  import opened Protocol
  import opened Scene
  import opened Session

  class WebSocketClient {
    var theta1: Option<real>
    var theta2: Option<real>
    var theta3: Option<real>
    var coords: seq<Point3>
    var error: Option<string>
    /** The socket held in the view's state, by its ready state. */
    var socket: Conn
    /** Every request transmitted on the socket so far, in order. */
    var outbox: seq<Request>

    /** The abstract state the handlers are specified against. */
    function State(): ViewState
      reads this
    {
      ViewState(View(theta1, theta2, theta3, coords, error), socket, outbox)
    }

    /** The object invariant: the view's result slots are consistent. */
    predicate Valid()
      reads this
    {
      Consistent(State().view)
    }

    constructor ()
      ensures Valid()
      ensures State() == Initial
    {
      theta1, theta2, theta3 := None, None, None;
      coords := [];
      error := None;
      socket := NoSocket;
      outbox := [];
    }

    /** The mount effect: a new socket is created and kept in the view's state. */
    method Mount()
      requires Valid()
      modifies this
      ensures Valid()
      ensures State() == Step(old(State()), Mounted)
      ensures socket == Connecting
    {
      socket := Connecting;
    }

    /** The socket reports that it is open. */
    method OnOpen()
      requires Valid()
      modifies this
      ensures Valid()
      ensures State() == Step(old(State()), SocketOpened)
    {
      if socket == Connecting {
        socket := Open;
      }
    }

    /** A decoded reply arrives. */
    method OnMessage(msg: Reply)
      requires Valid()
      modifies this
      ensures Valid()
      ensures State() == Step(old(State()), Message(msg))
      ensures Truthy(msg.error) ==>
        error == msg.error && theta1 == None && theta2 == None && theta3 == None && coords == []
      ensures !Truthy(msg.error) && msg.HasAngles() ==>
        theta1 == msg.theta1Deg && theta2 == msg.theta2Deg && theta3 == msg.theta3Deg &&
        |coords| == 4 && error == None
      ensures !Truthy(msg.error) && !msg.HasAngles() ==> State() == old(State())
    {
      if msg.error.Some? && msg.error.value != "" {
        error := msg.error;
        theta1 := None;
        theta2 := None;
        theta3 := None;
        coords := [];
      } else if msg.theta1Deg.Some? && msg.theta2Deg.Some? && msg.theta3Deg.Some? {
        theta1 := msg.theta1Deg;
        theta2 := msg.theta2Deg;
        theta3 := msg.theta3Deg;
        var newCoords := [
          msg.coords01.GetOr(Origin),
          msg.coords02.GetOr(Origin),
          msg.coords03.GetOr(Origin),
          msg.coords04.GetOr(Origin)
        ];
        coords := newCoords;
        error := None;
      }
      ApplyReplyKeepsConsistent(old(State()).view, msg);
    }

    /** The socket reports a transport error. */
    method OnError()
      requires Valid()
      modifies this
      ensures Valid()
      ensures State() == Step(old(State()), SocketError)
      ensures error == Some(ConnectionErrorText)
      ensures theta1 == old(theta1) && theta2 == old(theta2) && theta3 == old(theta3)
      ensures coords == old(coords) && socket == old(socket) && outbox == old(outbox)
    {
      error := Some(ConnectionErrorText);
    }

    /** The socket reports that it has closed. */
    method OnClose()
      requires Valid()
      modifies this
      ensures Valid()
      ensures State() == Step(old(State()), SocketClosed)
    {
      if socket != NoSocket {
        socket := Closed;
      }
    }

    /** The user asks for the inverse kinematics of `target` with the given arm and
        elbow configuration. */
    method SendMessage(target: Point3, arm: int, elbow: int)
      requires Valid()
      modifies this
      ensures Valid()
      ensures State() == Step(old(State()), SendClicked(target, arm, elbow))
      ensures old(socket) == Open ==>
        outbox == old(outbox) + [Request(target.x, target.y, target.z, arm, elbow)] &&
        error == old(error)
      ensures old(socket) != Open ==>
        outbox == old(outbox) && error == Some(NotConnectedText)
      ensures theta1 == old(theta1) && theta2 == old(theta2) && theta3 == old(theta3)
      ensures coords == old(coords) && socket == old(socket)
    {
      if socket == Open {
        var message := Request(target.x, target.y, target.z, arm, elbow);
        outbox := outbox + [message];
      } else {
        error := Some(NotConnectedText);
      }
    }

    /** The unmount cleanup: the socket is closed only when it is open. */
    method Cleanup()
      requires Valid()
      modifies this
      ensures Valid()
      ensures State() == Step(old(State()), Unmounted)
      ensures old(socket) == Open ==> socket == Closing
      ensures old(socket) != Open ==> State() == old(State())
    {
      if socket == Open {
        socket := Closing;
      }
    }
  }
}
