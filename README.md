# signet-server attestation store in Dafny

This project models the attestation store of signet-server (`index.js`):

- `getAttestations(id)` reads the record stored under the key `'/sig/' + id`.
- `saveAttestations(batch)` groups a batch with lodash's `groupBy` on `v.data.id`. For each id it then reads the stored list, appends the group and writes the result back.
- The `POST /sig` handler checks the shape of a request body with `every` before it saves anything.

The backend (a levelup database with JSON values) is the class `AttestationStore.SignetDb`. Its field `records` maps each backend key to the `attestations` array of the record under that key. Backend errors are an explicit parameter: `failing` is the set of keys whose get or put reports an error.

Modules:

- `JsValue` (`js_value.dfy`): JSON values, JavaScript truthiness, and the `String(x)` conversion that turns a value into a property key.
- `Attestation` (`attestation.dfy`): the key an attestation is filed under (`String(v.data.id)`).
- `Grouping` (`grouping.dfy`): lodash `groupBy`, generic over the element type and the key function. It is proved equal to an order-preserving filter and proved to be a partition.
- `Validation` (`validation.dfy`): the POST shape check. It has three outcomes: accepted, refused, or a thrown TypeError.
- `AttestationStore` (`store.dfy`): the backend, the effect of one save (`Saved`), the class `SignetDb` with the read, the save loop and the POST handler, and the properties that connect them.

The model follows what the code does in these cases:

- An element that is `null` makes `v.data` throw a TypeError. The same happens for a `data` object with its own `hasOwnProperty` field, because the method is shadowed and the call throws. Express passes the error to the fallback error handler, so the answer is 'internal error' and not 'invalid data'. `Validation.CheckAttestation` returns `Threw` for these, and `PostSig` answers `InternalError` without writing anything.
- An id need not be a string. Any truthy `data.id` is accepted, and `groupBy` turns it into a property key as `String(data.id)`. So the ids `5` and `"5"` share one record (`Attestation.NumericIdSharesKey`). The truthy id `[]` is filed under the empty key, so its record is `'/sig/'`.
- That conversion can throw. An id object with its own `toString` field is accepted, but `String` finds no callable `toString`, and `valueOf` returns the object itself. The same holds for an array id that contains such an object. `groupBy` then throws a TypeError before the backend is touched, so the answer is 'internal error' and nothing is written (`JsValue.KeyThrows`, `AttestationStore.ToStringIdScenario`).
- The value of `ok` is never checked, only that `data` has `ok` as an own property (`Validation.OkValueIgnored`).

## Model

| member | source | states |
|---|---|---|
| AttestationStore.SignetDb.constructor | index.js:15 | Opening the database exposes the records persisted before. |
| AttestationStore.SignetDb.GetAttestations | index.js:21-33 | A backend error other than not-found rejects. A missing record resolves to the empty list. A present record resolves to exactly its stored list. |
| AttestationStore.SignetDb.SaveAttestations | index.js:35-62 | If some id cannot be made a key, grouping throws and the backend is unchanged. Otherwise the backend becomes `Saved` of the old backend and `groupBy(batch)`, and the call resolves iff no id's key fails. |
| AttestationStore.SignetDb.WriteGroups | index.js:38-61 | The loop over the distinct ids, in any order, leaves the backend equal to `Saved` of the old backend and the groups. It reports success iff no id's key fails. |
| AttestationStore.WriteStep | index.js:40-50 | Taking one more id out of the loop's to-do set extends the save by exactly that id's read-append-write cycle, or by nothing when its key fails. |
| AttestationStore.SignetDb.PostSig | index.js:76-97 | A refused body answers 'invalid data' and writes nothing. A check that throws answers 'internal error' and writes nothing, and so does an accepted body whose grouping throws. Otherwise every element's `data.id` can be read, the batch is saved as `Saved`, and it answers `{ok: true}` iff every write succeeded. |
| AttestationStore.SigKey | index.js:23 | The key `'/sig/' + id` splits back into the prefix and the id. |
| AttestationStore.SigKeyInjective | index.js:40-50 | Two ids have the same record key iff they are equal, so distinct ids never share a record. |
| AttestationStore.SavedAt | index.js:40-50 | After a save, an id with a group and a working key holds its old list followed by its group. Any other id keeps its list. The record exists iff it existed before or was written. |
| AttestationStore.SavedElsewhere | index.js:38-50 | A key that no written group maps to keeps its presence and its value. |
| AttestationStore.AppendOnly | index.js:48 | No record disappears, and each id's old list is a prefix of its new list. |
| AttestationStore.SaveBatchAt | index.js:36-50 | After saving a batch, each id holds its old list followed by the batch elements with that id, in input order. This holds unless its key fails. |
| AttestationStore.SaveLeavesOtherKeys | index.js:36-50 | A key that is not the record key of any batch element keeps its presence and its value. |
| AttestationStore.SequentialSaves | index.js:35-62 | Saving two batches one after the other gives the same backend as saving their concatenation once. |
| AttestationStore.SavedExtend | index.js:38-58 | One more per-id cycle writes exactly that id's record (old list plus group), or nothing when its key fails. |
| AttestationStore.ReplayReads | index.js:35-62 | After any number of sequential saves, an id reads as its old list followed by all its attestations. They appear in call order and input order. |
| AttestationStore.NeverWrittenReadsEmpty | index.js:24-26 | On a fresh backend, an id that no saved attestation carries reads as the empty list. |
| AttestationStore.TwoIdsScenario | index.js:35-62 | Posting one attestation for "x" and one for "y" is accepted. Each is then stored alone under its own id. |
| AttestationStore.TwoIdsRoundTrip | index.js:21-97 | On a fresh backend that never fails, posting the x/y body answers `{ok: true}`, and reading "x" and "y" afterwards returns each attestation alone. |
| AttestationStore.ToStringIdScenario | index.js:36 | A body whose id is an object with its own `toString` field passes the shape check, yet grouping it throws. |
| AttestationStore.MissingOkScenario | index.js:80-87 | An attestation without `ok` makes the whole body refused. |
| Attestation.StringIdIsKey | index.js:36 | An attestation whose `data.id` is a string is grouped under exactly that string. |
| Attestation.NumericIdSharesKey | index.js:36 | The ids `5` and `"5"` are grouped under the same key "5". |
| Grouping.GroupByIsFilter | index.js:36 | The group under an id is exactly the elements with that key, in input order. A group exists iff some element has that key. |
| Grouping.FilterAppend | index.js:36 | The elements with one key of a concatenation are those of the first part followed by those of the second. |
| Grouping.FilterMembers | index.js:36 | A filtered group holds only elements of the batch with the group's key. It is empty iff no element has that key. |
| Grouping.ElementInOwnGroup | index.js:36 | Every element lands in the group of its own key. |
| Grouping.GroupMembersHaveKey | index.js:36 | A group holds only batch elements with the group's key. |
| Grouping.IdsAreKeys | index.js:36-38 | The ids in first-seen order are distinct and are exactly the keys of the grouped object. |
| Grouping.GroupingPartitions | index.js:36 | The groups laid out by id form a permutation of the batch, so the group sizes add up to the batch size. |
| Validation.EveryAll | index.js:81 | `every` accepts iff the callback accepts each element. |
| Validation.EveryFirstRefusal | index.js:81 | A refused check is refused by its first non-accepted element. Every element before it is accepted, and that element's outcome is the outcome of the whole check. |
| Validation.AcceptedIffWellFormed | index.js:80-81 | A body is accepted iff it is an object whose `attestations` field is an array of well-formed attestations. Well-formed means an object `data` with a truthy `id`, an own `ok`, and no own `hasOwnProperty` field (which would shadow the method and make the check throw). |
| Validation.AcceptedIdsReadable | index.js:80-81 | In an accepted batch, reading each element's `v.data.id` does not throw. Each element's key is `String(data.id)` of that truthy id, when that conversion does not throw itself. |
| Validation.OkValueIgnored | index.js:81 | The check does not depend on the value of `ok`. |
| Validation.MissingOkRefused | index.js:81 | An element whose `data` lacks `ok` is not accepted. |
| JsValue.NatToString | index.js:36 | The key of a non-negative number id is its decimal notation: digits only, denoting the number, with no leading zero. |
| JsValue.IntToString | index.js:36 | The key of a negative number id is a minus sign followed by the digits of its magnitude. |
| JsValue.IntToStringInjective | index.js:36 | Two number ids share a key iff they are the same number. |

## Left out

- Express routing, body-parser, morgan and the fallback error middleware (index.js:2-5, 17-19, 99-104) are HTTP plumbing. The only behaviour kept is that a thrown check or a thrown grouping ends in 'internal error'.
- The `GET /sig/:id` handler (index.js:64-74) is not modelled, because it only forwards `getAttestations`. HTTP status codes and the `.catch().then()` chains that try to send a second response after a 500 (index.js:66-73, 90-96) are also left out.
- yargs port parsing (index.js:9-13) is command-line configuration.
- levelup internals are left out: on-disk storage, the JSON value encoding, callbacks and error objects. The backend is a map, and its errors are the set `failing` of keys whose get or put fails.
- `console.info` and `console.error` output (index.js:54, 67, 92, 100) is not modelled.
- AttestationStore.SignetDb.SaveAttestations: runs the per-id cycles one after another. It does not model the `Promise.all` interleaving, the lost update between two concurrent saves of the same id, or when a rejection is reported relative to the writes still in flight. The final backend is the same, because each id touches its own key.
- JsValue.ToKey: a number is an integer held exactly, and its key is always its full decimal notation. In JavaScript, `JSON.parse` rounds integers beyond 2^53 to the nearest double. `String` also writes magnitudes of 10^21 and more in exponent form, so the id `1e21` keys as `"1e+21"` and shares a record with that string. The model keeps such ids apart, because it neither rounds nor uses exponent form. Fractional numbers are not modelled.
- Grouping.GroupByIsFilter: grouping is modelled without prototype effects, so the id `"__proto__"` is not covered. The standalone `lodash.groupby` stores groups in a plain object with `result[key] = [value]`. For `"__proto__"` that sets the object's prototype instead of creating a group. `lodash.map` then treats the object as array-like and visits only index 0, so the batch is not saved as the model describes, and the model files `"__proto__"` like any other id.
- The order of keys in the object built by `groupBy` (integer-like keys first in JavaScript) is not modelled. The save loop takes the ids in an arbitrary order instead, and its result does not depend on it.
- AttestationStore.SigKeyInjective: strings are sequences of Unicode scalar values, so an id holding a lone UTF-16 surrogate (a JSON string such as `"\ud800"`, which a JavaScript string can hold and the shape check accepts) cannot be represented. How the backend encodes such a key, and whether two such ids could then share a record, is not covered.
