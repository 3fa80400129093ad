/**
 * The web form and the backend together: what the form sends is what the
 * backend reads, every type the form offers passes the backend's unit guard,
 * and the CO2e the form shows after a successful submission is the one stored.
 */
module EndToEnd {
  import opened Wrappers
  import opened Activities
  import opened JsonValues
  import Climatiq
  import ActivityForm
  import ActivityController

  /** The JSON encoding the form sends is read back by the backend as the same record. */
  lemma EncodedInputValidates(a: ActivityInput)
    ensures ActivityController.ValidateBody(Some(ActivityForm.EncodeInput(a))) == Success(a)
  {
  }

  /**
   * The backend's response as the form reads it: status, the `calculatedCo2e`
   * of a 201 body and the `message` of the body. The HTTP status text is not
   * modelled and is left empty.
   */
  function ReplyOf(r: ActivityController.Response): ActivityForm.ServerReply {
    var co2e := if r.body.Logged? then Some(r.body.calculatedCo2e) else None;
    var message := if r.body.ErrorBody? || r.body.Logged? then r.body.message else "";
    ActivityForm.Reply(r.status, "", co2e, message)
  }

  /** The backend as the form's server: logActivity for the signed-in user. */
  function Backend(userId: string, reply: Climatiq.Payload -> Option<real>, assignedId: Option<string>)
    : ActivityInput -> ActivityForm.ServerReply
  {
    a => ReplyOf(ActivityController.LogActivityOutcome(userId, Some(ActivityForm.EncodeInput(a)), reply, assignedId).response)
  }

  /**
   * A submission of an offered type with a positive value builds a record,
   * the backend accepts its shape, and its unit passes the backend's guard:
   * it is computed directly or mapped to a remote request, never rejected.
   */
  lemma {:induction false} OfferedSubmissionAccepted(i: int, v: real, notes: string)
    requires 0 <= i < |ActivityForm.ActivityTypes|
    requires v > 0.0
    ensures var built := ActivityForm.BuildActivityInput(ActivityForm.ActivityTypes[i].value, Some(v), notes);
      && built.Success?
      && ActivityController.ValidateBody(Some(ActivityForm.EncodeInput(built.value))) == Success(built.value)
      && (Climatiq.DirectCo2e(built.value).Direct? || Climatiq.MapActivityToClimatiq(built.value).Some?)
  {
    var t := ActivityForm.ActivityTypes[i].value;
    ActivityForm.OfferedUnitIsAccepted();
    assert ActivityForm.ActivityTypes[i] in ActivityForm.ActivityTypes;
    var built := ActivityForm.BuildActivityInput(t, Some(v), notes);
    EncodedInputValidates(built.value);
  }

  /**
   * After a submission against the backend, a shown result is exactly the CO2e
   * of the one record the backend stored; and a signed-in submission of an
   * offered type whose estimate and write both succeed does show a result.
   */
  lemma {:induction false} ShownResultIsStored(i: int, v: real, notes: string, token: string, userId: string,
                                               reply: Climatiq.Payload -> Option<real>, assignedId: Option<string>)
    requires 0 <= i < |ActivityForm.ActivityTypes|
    requires v > 0.0 && token != ""
    ensures var t := ActivityForm.ActivityTypes[i].value;
      var o := ActivityForm.Submit(true, Some(token), Some(v), t, notes, Backend(userId, reply, assignedId));
      && o.request.Some?
      && var logged := ActivityController.LogActivityOutcome(userId, Some(ActivityForm.EncodeInput(o.request.value)), reply, assignedId);
      && (o.cleared <==> |logged.persisted| == 1)
      && (o.cleared ==> o.resultCo2e == Some(logged.persisted[0].co2e))
      && (Climatiq.Co2eOf(o.request.value, reply).Some? && assignedId.Some? ==> o.cleared)
  {
    var t := ActivityForm.ActivityTypes[i].value;
    OfferedSubmissionAccepted(i, v, notes);
    var o := ActivityForm.Submit(true, Some(token), Some(v), t, notes, Backend(userId, reply, assignedId));
    var a := o.request.value;
    EncodedInputValidates(a);
  }
}
