/** The one property of an attestation that the store looks at: the id it
    is filed under, read as `v.data.id` by the iteratee of
    `saveAttestations`. */
module Attestation {
  import opened JsValue

  /** Reading `v.data.id` does not throw: `v` is an object whose `data`
      field is present and not null. */
  predicate IdReadable(v: Json) {
    v.JObj? && "data" in v.fields && !v.fields["data"].JNull?
  }

  predicate AllIdsReadable(batch: seq<Json>) {
    forall i | 0 <= i < |batch| :: IdReadable(batch[i])
  }

  /** The property key the iteratee `v => v.data.id` files `v` under:
      `String(v.data.id)`, which is "undefined" when `data` has no `id`
      field. On an element whose id cannot be read (not `IdReadable`), or
      whose id cannot be converted (`IdThrows`), JavaScript throws instead;
      the store never groups such a batch. */
  function IdOf(v: Json): string {
    if v.JObj? && "data" in v.fields && v.fields["data"].JObj? && "id" in v.fields["data"].fields
    then ToKey(v.fields["data"].fields["id"])
    else "undefined"
  }

  /** Turning `v.data.id` into a property key throws (`KeyThrows`). */
  predicate IdThrows(v: Json) {
    v.JObj? && "data" in v.fields && v.fields["data"].JObj? && "id" in v.fields["data"].fields
    && KeyThrows(v.fields["data"].fields["id"])
  }

  /** Grouping the batch throws: some element's id cannot be made a key. */
  predicate AnyIdThrows(batch: seq<Json>) {
    exists i | 0 <= i < |batch| :: IdThrows(batch[i])
  }

  /** A string id files the attestation under exactly that string. */
  lemma StringIdIsKey(v: Json, s: string)
    requires v.JObj? && "data" in v.fields && v.fields["data"].JObj?
    requires "id" in v.fields["data"].fields && v.fields["data"].fields["id"] == JStr(s)
    ensures IdReadable(v) && IdOf(v) == s
  {
  }

  /** A numeric id is converted to its decimal string, so the ids `5` and
      `"5"` are filed under the same key and share one record. */
  lemma NumericIdSharesKey(data: map<string, Json>)
    ensures IdOf(JObj(map["data" := JObj(data["id" := JNum(5)])])) ==
            IdOf(JObj(map["data" := JObj(data["id" := JStr("5")])])) == "5"
  {
    assert NatToString(5) == "5";
  }
}
