/** The shape check of the `POST /sig` handler: the body must be an object
    whose `attestations` field is an array, and `every` element must have a
    truthy `data`, a truthy `data.id` and an own `ok` property. Evaluating
    the check can also throw a TypeError, which the handler does not catch. */
module Validation {
  import opened JsValue
  import opened Attestation

  /** How evaluating the check ends: true, false, or a thrown TypeError. */
  datatype Verdict = Valid | Invalid | Threw

  /** The `every` callback `v => !!v.data && !!v.data.id &&
      v.data.hasOwnProperty('ok')`, evaluated left to right with
      short-circuiting. `null.data` throws; any other non-object element has
      no `data`. Primitives and arrays have no `id` property. A JSON object
      with its own `hasOwnProperty` field shadows the method with a
      non-function, so the call throws. */
  function CheckAttestation(v: Json): Verdict {
    if v.JNull? then Threw
    else if !v.JObj? || "data" !in v.fields || !Truthy(v.fields["data"]) then Invalid
    else
      var d := v.fields["data"];
      if !d.JObj? || "id" !in d.fields || !Truthy(d.fields["id"]) then Invalid
      else if "hasOwnProperty" in d.fields then Threw
      else if "ok" in d.fields then Valid
      else Invalid
  }

  /** `Array.prototype.every`: stops at the first element that is not
      accepted, and a throw from the callback propagates. */
  function Every(vs: seq<Json>): Verdict {
    if vs == [] then Valid
    else
      match CheckAttestation(vs[0])
      case Valid => Every(vs[1..])
      case Invalid => Invalid
      case Threw => Threw
  }

  /** `data && data.attestations && Array.isArray(data.attestations)`,
      followed by `every`; the batch is invalid without it. */
  function ValidateBody(body: Json): Verdict {
    if body.JObj? && "attestations" in body.fields && body.fields["attestations"].JArr? then
      Every(body.fields["attestations"].items)
    else Invalid
  }

  /** The batch a request body carries, when it carries an array. */
  function Batch(body: Json): seq<Json> {
    if body.JObj? && "attestations" in body.fields && body.fields["attestations"].JArr? then
      body.fields["attestations"].items
    else []
  }

  /** The declarative shape of an accepted attestation. */
  predicate WellFormed(v: Json) {
    && v.JObj?
    && "data" in v.fields
    && v.fields["data"].JObj?
    && "id" in v.fields["data"].fields
    && Truthy(v.fields["data"].fields["id"])
    && "ok" in v.fields["data"].fields
    && "hasOwnProperty" !in v.fields["data"].fields
  }

  /** `every` accepts exactly when each element is accepted. */
  lemma {:induction false} EveryAll(vs: seq<Json>)
    ensures Every(vs) == Valid <==> forall i | 0 <= i < |vs| :: CheckAttestation(vs[i]) == Valid
  {
    if vs != [] {
      EveryAll(vs[1..]);
      assert forall i | 1 <= i < |vs| :: vs[i] == vs[1..][i - 1];
    }
  }

  /** A refused batch is refused because of its first element that is not
      accepted: all elements before it are accepted, and that element's
      outcome (invalid or a throw) is the outcome of the whole check. */
  lemma {:induction false} EveryFirstRefusal(vs: seq<Json>)
    requires Every(vs) != Valid
    ensures exists i | 0 <= i < |vs| ::
      && CheckAttestation(vs[i]) == Every(vs)
      && forall j | 0 <= j < i :: CheckAttestation(vs[j]) == Valid
  {
    if CheckAttestation(vs[0]) != Valid {
      assert CheckAttestation(vs[0]) == Every(vs);
    } else {
      EveryFirstRefusal(vs[1..]);
      var i :| 0 <= i < |vs[1..]| && CheckAttestation(vs[1..][i]) == Every(vs[1..])
        && forall j | 0 <= j < i :: CheckAttestation(vs[1..][j]) == Valid;
      assert vs[i + 1] == vs[1..][i];
      assert forall j | 1 <= j < i + 1 :: vs[j] == vs[1..][j - 1];
    }
  }

  /** A body is accepted exactly when it carries an array of well-formed
      attestations: whatever the value of `ok`, and even an empty array. */
  lemma AcceptedIffWellFormed(body: Json)
    ensures ValidateBody(body) == Valid <==>
      && body.JObj? && "attestations" in body.fields && body.fields["attestations"].JArr?
      && forall i | 0 <= i < |Batch(body)| :: WellFormed(Batch(body)[i])
  {
    var vs := Batch(body);
    EveryAll(vs);
    assert forall i | 0 <= i < |vs| :: (CheckAttestation(vs[i]) == Valid <==> WellFormed(vs[i]));
  }

  /** In an accepted batch, reading each element's `v.data.id` does not
      throw, and the element's key is `String(data.id)` of that truthy id
      (when that conversion does not throw itself; see `IdThrows`). */
  lemma AcceptedIdsReadable(body: Json)
    requires ValidateBody(body) == Valid
    ensures AllIdsReadable(Batch(body))
    ensures forall i | 0 <= i < |Batch(body)| ::
      && WellFormed(Batch(body)[i])
      && IdOf(Batch(body)[i]) == ToKey(Batch(body)[i].fields["data"].fields["id"])
  {
    AcceptedIffWellFormed(body);
  }

  /** `v` with `data.ok` set to `x`. */
  function WithOk(v: Json, x: Json): Json
    requires v.JObj? && "data" in v.fields && v.fields["data"].JObj?
  {
    JObj(v.fields["data" := JObj(v.fields["data"].fields["ok" := x])])
  }

  /** Only the presence of `ok` is checked, not its value: an element with
      `ok: false` or `ok: null` is judged like one with `ok: true`. */
  lemma OkValueIgnored(v: Json, x: Json, y: Json)
    requires v.JObj? && "data" in v.fields && v.fields["data"].JObj?
    ensures CheckAttestation(WithOk(v, x)) == CheckAttestation(WithOk(v, y))
    ensures CheckAttestation(WithOk(v, x)) == Valid <==> WellFormed(WithOk(v, x))
  {
  }

  /** An element whose `data` lacks `ok` is refused. */
  lemma MissingOkRefused(v: Json)
    requires v.JObj? && "data" in v.fields && v.fields["data"].JObj?
    requires "ok" !in v.fields["data"].fields
    ensures CheckAttestation(v) != Valid
  {
  }
}
