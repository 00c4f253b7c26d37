/** The view's solver-result state (three angles, the joint chain and the error
    message), how a reply updates it, and what the view derives from it. */
module Scene {
  import opened Wrappers
  import opened Geometry
  import opened Protocol

  /** The message shown when the transport reports an error. */
  const ConnectionErrorText: string := "Error en la conexión WebSocket."
  /** The message shown when a send is attempted without an open socket. */
  const NotConnectedText: string := "WebSocket no está conectado"

  /** The five state slots of the view. */
  datatype View = View(
    theta1: Option<real>,
    theta2: Option<real>,
    theta3: Option<real>,
    coords: seq<Point3>,
    error: Option<string>)

  /** The state of a freshly mounted view. */
  const InitialView := View(None, None, None, [], None)

  predicate AnglesKnown(v: View)
  {
    v.theta1.Some? && v.theta2.Some? && v.theta3.Some?
  }

  /** The joint chain is either absent or a full four-point chain, and it is present
      exactly when all three angles are known. */
  predicate Consistent(v: View)
  {
    (|v.coords| == 0 || |v.coords| == 4) &&
    (|v.coords| > 0 <==> AnglesKnown(v))
  }

  /** The view after a decoded reply has been handled. */
  function ApplyReply(v: View, msg: Reply): (r: View)
    // a truthy error wins and clears the angles and the chain together
    ensures Truthy(msg.error) ==>
      r == View(None, None, None, [], msg.error)
    // otherwise a complete set of angles replaces the result and clears the error
    ensures !Truthy(msg.error) && msg.HasAngles() ==>
      r.theta1 == msg.theta1Deg && r.theta2 == msg.theta2Deg && r.theta3 == msg.theta3Deg &&
      |r.coords| == 4 && r.error == None &&
      forall k :: 0 <= k < 4 ==>
        r.coords[k] == (if msg.ChainFields()[k].Some? then msg.ChainFields()[k].value else Origin)
    // anything else leaves every slot as it was
    ensures !Truthy(msg.error) && !msg.HasAngles() ==> r == v
  {
    match Classify(msg)
    case Failure(m) => View(None, None, None, [], Some(m))
    case Success(t1, t2, t3, chain) => View(Some(t1), Some(t2), Some(t3), chain, None)
    case Unrecognized => v
  }

  /** Handling a reply keeps the view consistent. */
  lemma ApplyReplyKeepsConsistent(v: View, msg: Reply)
    requires Consistent(v)
    ensures Consistent(ApplyReply(v, msg))
  {
  }

  /** The panel of computed angles with one row per chain point. */
  datatype AnglePanel = AnglePanel(theta1: real, theta2: real, theta3: real, rows: seq<Point3>)

  /** The angle panel is shown only when all three angles are known. */
  function Panel(v: View): (p: Option<AnglePanel>)
    ensures p.Some? <==> AnglesKnown(v)
    ensures p.Some? ==>
      Some(p.value.theta1) == v.theta1 && Some(p.value.theta2) == v.theta2 &&
      Some(p.value.theta3) == v.theta3 && p.value.rows == v.coords
  {
    if v.theta1.Some? && v.theta2.Some? && v.theta3.Some? then
      Some(AnglePanel(v.theta1.value, v.theta2.value, v.theta3.value, v.coords))
    else
      None
  }

  /** The error banner is shown only for a truthy error string. */
  function Banner(v: View): (b: Option<string>)
    ensures b.Some? <==> Truthy(v.error)
    ensures b.Some? ==> b.value == v.error.value && b.value != ""
  {
    if v.error.Some? && v.error.value != "" then Some(v.error.value) else None
  }

  /** What is drawn for the joint chain: nothing, or one marker per point and the
      polyline through all points in order. */
  datatype ChainDrawing = NoChain | Chain(markers: seq<Point3>, polyline: seq<Point3>)

  function DrawChain(coords: seq<Point3>): (d: ChainDrawing)
    ensures d.Chain? <==> |coords| > 0
    ensures d.Chain? ==> d.markers == coords && d.polyline == coords
  {
    if |coords| > 0 then Chain(coords, coords) else NoChain
  }

  /** In a consistent view the chain is drawn exactly when the angle panel is shown,
      and then with four markers and a four-point polyline. */
  lemma ChainDrawnWithPanel(v: View)
    requires Consistent(v)
    ensures DrawChain(v.coords).Chain? <==> Panel(v).Some?
    ensures DrawChain(v.coords).Chain? ==>
      |DrawChain(v.coords).markers| == 4 && |DrawChain(v.coords).polyline| == 4
  {
  }
}
