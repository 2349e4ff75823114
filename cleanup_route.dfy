/**
 * `POST /api/workflows/cleanup` (src/app/api/workflows/cleanup/route.ts):
 * `keepDays` and `keepLatest` are read from the JSON body, floored and
 * clamped, and the cleanup runs only when at least one of them is positive.
 *
 * A body field is `None` when missing or null (`?? 0`); otherwise it is the
 * number `Number(...)` makes of it. A body that does not parse counts as `{}`.
 */
module CleanupRoute {
  import opened Optional

  /** A JavaScript number: finite, or NaN or an infinity. */
  datatype JsNumber = Finite(value: real) | NonFinite

  /** The parsed body's two fields. */
  datatype CleanupBody = CleanupBody(keepDays: Option<JsNumber>, keepLatest: Option<JsNumber>)

  const MaxKeepDays: nat := 3650
  const MaxKeepLatest: nat := 10000

  /** `Number.isFinite(raw) ? Math.max(0, Math.min(hi, Math.floor(raw))) : 0`, with a missing field read as 0. */
  function Clamp(field: Option<JsNumber>, hi: nat): (n: nat)
    ensures n <= hi
    ensures field.None? || field == Some(NonFinite) ==> n == 0
    ensures field.Some? && field.value.Finite? ==>
              var f := field.value.value.Floor;
              && (f <= 0 ==> n == 0)
              && (0 <= f <= hi ==> n == f)
              && (f >= hi ==> n == hi)
  {
    match field
    case None => 0
    case Some(NonFinite) => 0
    case Some(Finite(x)) =>
      var f := x.Floor;
      if f < 0 then 0 else if f < hi then f else hi
  }

  /** The reply: 400 with a message, or the cleanup's result with the values it ran with. */
  datatype CleanupReply =
    | BadRequest(status: nat, error: string)
    | CleanedUp(keepDays: nat, keepLatest: nat)

  /**
   * `POST`. `body` is None when the request body is not JSON. The cleanup
   * itself (`cleanupWorkflows`) is not part of this model: `CleanedUp` says
   * it ran with the values it carries, which the reply echoes.
   */
  function Post(body: Option<CleanupBody>): (r: CleanupReply)
    ensures r.BadRequest? ==> r.status == 400
    ensures var b := if body.Some? then body.value else CleanupBody(None, None);
            var days := Clamp(b.keepDays, MaxKeepDays);
            var latest := Clamp(b.keepLatest, MaxKeepLatest);
            && (r.BadRequest? <==> days == 0 && latest == 0)
            && (r.CleanedUp? ==> r.keepDays == days && r.keepLatest == latest)
  {
    var b := if body.Some? then body.value else CleanupBody(None, None);
    var keepDays := Clamp(b.keepDays, MaxKeepDays);
    var keepLatest := Clamp(b.keepLatest, MaxKeepLatest);
    if keepDays == 0 && keepLatest == 0 then BadRequest(400, "Provide keepDays or keepLatest greater than 0")
    else CleanedUp(keepDays, keepLatest)
  }

  /** A cleanup runs only with values in range, at least one of them positive. */
  lemma CleanupBounds(body: Option<CleanupBody>)
    ensures var r := Post(body);
            r.CleanedUp? ==> r.keepDays <= 3650 && r.keepLatest <= 10000 && (r.keepDays > 0 || r.keepLatest > 0)
  {
  }

  /** An unparseable body, an empty one, and one whose values are all below 1 are refused. */
  lemma NothingToKeepRefused(body: Option<CleanupBody>)
    requires body.None? || body == Some(CleanupBody(None, None))
             || (body.Some? && (forall n :: body.value.keepDays == Some(n) ==> n.NonFinite? || n.value < 1.0)
                            && (forall n :: body.value.keepLatest == Some(n) ==> n.NonFinite? || n.value < 1.0))
    ensures Post(body).BadRequest?
  {
  }
}
