/** The messages exchanged with the inverse-kinematics solver: the request the view
    sends and the decoded reply it receives, and the classification of a reply. */
module Protocol {
  import opened Wrappers
  import opened Geometry

  /** A request `{X, Y, Z, arm, elbow}`. */
  datatype Request = Request(x: real, y: real, z: real, arm: int, elbow: int)

  /** A decoded reply: every field of the reply record is optional. */
  datatype Reply = Reply(
    error: Option<string>,
    theta1Deg: Option<real>,
    theta2Deg: Option<real>,
    theta3Deg: Option<real>,
    coords01: Option<Point3>,
    coords02: Option<Point3>,
    coords03: Option<Point3>,
    coords04: Option<Point3>)
  {
    /** The four chain-point fields, in order. */
    function ChainFields(): seq<Option<Point3>>
    {
      [coords01, coords02, coords03, coords04]
    }

    /** All three joint angles are present. */
    predicate HasAngles()
    {
      theta1Deg.Some? && theta2Deg.Some? && theta3Deg.Some?
    }
  }

  /** A string value is truthy in JavaScript exactly when it is present and non-empty. */
  predicate Truthy(s: Option<string>)
  {
    s.Some? && s.value != ""
  }

  /** What a reply means for the view. */
  datatype Outcome =
    | Failure(message: string)
    | Success(theta1: real, theta2: real, theta3: real, chain: seq<Point3>)
    | Unrecognized

  /** Classifies a reply in priority order: a truthy error, then a complete set of
      angles, and otherwise nothing recognisable. */
  function Classify(msg: Reply): (o: Outcome)
    ensures o.Failure? <==> Truthy(msg.error)
    ensures o.Failure? ==> o.message == msg.error.value
    ensures o.Success? <==> !Truthy(msg.error) && msg.HasAngles()
    ensures o.Success? ==>
      o.theta1 == msg.theta1Deg.value &&
      o.theta2 == msg.theta2Deg.value &&
      o.theta3 == msg.theta3Deg.value
    // exactly four chain points; a missing one is the origin, a present one is kept
    ensures o.Success? ==> |o.chain| == 4
    ensures o.Success? ==> forall k :: 0 <= k < 4 ==>
      o.chain[k] == (if msg.ChainFields()[k].Some? then msg.ChainFields()[k].value else Origin)
  {
    if Truthy(msg.error) then
      Failure(msg.error.value)
    else if msg.theta1Deg.Some? && msg.theta2Deg.Some? && msg.theta3Deg.Some? then
      Success(msg.theta1Deg.value, msg.theta2Deg.value, msg.theta3Deg.value,
              [ msg.coords01.GetOr(Origin),
                msg.coords02.GetOr(Origin),
                msg.coords03.GetOr(Origin),
                msg.coords04.GetOr(Origin) ])
    else
      Unrecognized
  }
}
