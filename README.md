# weavedb document-store core in Dafny

This project models the write path of weavedb's contract library
(`src/contracts/lib/utils.js`). weavedb is a document database that runs
inside a SmartWeave contract. The modelled parts are:

- **the merge engine** `mergeData`. It applies a payload to a document's
  field map and interprets the update markers `arrayUnion`, `arrayRemove`,
  `inc`, `del` and `ts` (module `Merge`);
- **the path resolver** `getDoc`/`getCol`. It walks a path
  `[col, id, col, id, ...]` through nested sub-collections. It creates
  missing collections and documents, stamps the document `setter`, and in
  `getDoc` runs the rule gate of every collection it passes (module `Tree`);
- **the rule gate**. It classifies the operation, parses rule keys
  `"<allow|deny> <op,op,...>"`, and folds the matching rules into a decision
  in declaration order (module `Rules`);
- **request validation** `parse`. It splits the query into payload and
  path, records the generated id for `add`, checks the shape, checks the
  owner for `setSchema`/`setRules`, and runs the schema gate (module
  `Parse`);
- **id generation** `bigIntFromBytes` and `genId` (module `Ids`).

Module `Json` holds the JSON values, the two failures, and the few
JavaScript coercions whose results are stored in documents or used as
property keys.

The document tree is a value. Each walk returns the tree as the source
leaves it after its in-place updates. A thrown error is a `Result.Err`: the
host discards the whole state of an interaction that throws, so a failure
carries no partial state. The loops of the source are methods proved
against declarative definitions:

- `Merge.MergeData` against `Merge.Merged`;
- `Rules.CheckRules` against `Rules.Authorized`;
- `Ids.BigIntFromBytes` against `Ids.BigEndian`;
- `Ids.GenId` against `Ids.IdFrom`.

Foreign code is passed in as a parameter. Apart from `eval` being total
(see "Left out"), nothing is assumed about it:

- the rule expression evaluator (json-logic): `eval`;
- the JSON-schema validator (schemasafe): `validate`;
- the host hash of each id position's seed: `digest`;
- the block height, the timestamp and the transaction id: `Env`.

In several places the code does something other than what a
Firestore-like API, or the repository's own tests, would lead a reader to
expect. The model follows the code:

- **No ownership check.** There is no ownership check for
  `update`/`upsert`/`delete`: the branch that compares the setter with the
  signer is empty (`Parse.StrangerMayUpdate`).
- **A schema failure throws.** A payload the schema rejects is an error,
  not a silent no-op. The document only appears unchanged because the host
  discards the failed interaction.
- **`add` is classified "add".** It is not classified "create", because
  `includes(op)("set", "add")` tests only whether `op` occurs in "set"
  (`Rules.OpClassTable`).
- **The setter is stamped before the rules run.** Any call with a signer
  stamps a document that has no setter, at every level of the path,
  reads included, and not only a first write. The stamp comes before the
  gate, so the rules of a document that had no setter already see the
  signer as its setter. A call the rules reject throws, so it leaves no
  stamp behind.
- **The payload is not forwarded.** The recursive `getDoc` call does not
  pass the payload on, so rules below the first level see a missing
  payload (`Tree.UnforwardedPayload`).
- **Two error kinds.** Errors collapse into the generic wrong-query error
  and the not-owner error.

## Model

| member | source | states |
|---|---|---|
| Json.PlusNumber | src/contracts/lib/utils.js:31 | `+=` adds a number to a number field, to 0 for null and to 0 or 1 for a boolean; it appends the number's decimal text to a string, and to the string form of an array or an object; the result is text exactly in those three cases |
| Json.NatDecimalInjective | src/contracts/lib/utils.js:17 | distinct indices have distinct decimal forms, so the keys `for…in` gives an array's elements are distinct |
| Merge.Classify | src/contracts/lib/utils.js:20-38 | a value is an operator exactly when it is an object whose `__op` is one of the five markers; each marker gives its own operator, with `arr` for a union or remove and `n` for an inc; every other value is stored as it is |
| Merge.Entries | src/contracts/lib/utils.js:17-18 | `for…in` visits an object's own properties, an array's indices and a string's indices as decimal keys, one key per element and holding that element (or one-character string), and nothing for any other value |
| Merge.IndexedAt | src/contracts/lib/utils.js:17-18 | the index `i` of a sequence is the key of its decimal form, holding element `i` |
| Merge.IndexedOnly | src/contracts/lib/utils.js:17 | an index-keyed map has no key other than the indices |
| Merge.IndexedSize | src/contracts/lib/utils.js:17 | an array or a string has as many keys as elements |
| Merge.Payload | src/contracts/lib/utils.js:17-38 | an object payload asks, for each of its keys, the operation its value classifies as; an array payload asks the same for each index; a string payload stores each character at its index; any other payload asks nothing |
| Merge.FieldUpdate | src/contracts/lib/utils.js:20-38 | one field's update fails exactly when a union or remove operand is not an array or an `inc` operand is not a number; it removes the key exactly for `del` |
| Merge.MergedGet | src/contracts/lib/utils.js:15-41 | after a successful merge every key holds the value its operator gives it, and keys the payload does not name keep their base value |
| Merge.MergeData | src/contracts/lib/utils.js:15-41 | the key-by-key loop fails when some operator is malformed and otherwise computes the merged map, whatever order it visits the keys in |
| Merge.MergeKeepsUnnamed | src/contracts/lib/utils.js:16-19 | without overwrite, a document with data keeps every field the payload does not name |
| Merge.OverwriteForgets | src/contracts/lib/utils.js:16 | with overwrite the result does not depend on the prior data, equals a merge into null data, and has only payload keys |
| Merge.SetStoresPayload | src/contracts/lib/utils.js:36-37 | a `set` of a marker-free payload stores exactly that payload, whatever the document held |
| Merge.Without | src/contracts/lib/utils.js:27 | ramda `without` is never longer than the list, and keeps only elements of the list that are not removed |
| Merge.WithoutMembers | src/contracts/lib/utils.js:27 | an element survives `arrayRemove` exactly when it was in the array and equals no removed element |
| Merge.WithoutKeepsOrder | src/contracts/lib/utils.js:27 | the survivors of `arrayRemove` keep their relative order |
| Merge.WithoutAppend | src/contracts/lib/utils.js:27 | removing from a concatenation removes from each part |
| Merge.UnionThenRemove | src/contracts/lib/utils.js:20-27 | a union appends the whole operand, duplicates kept, after the old array or `[]`; a later remove filters both parts |
| Merge.IncThenInc | src/contracts/lib/utils.js:28-31 | on a missing, null or numeric field, `inc(a)` then `inc(b)` equals `inc(a + b)`, starting from 0 |
| Merge.MalformedFails | src/contracts/lib/utils.js:21 | one malformed operator fails the whole merge |
| Merge.MarkerEffects | src/contracts/lib/utils.js:20-38 | `del` removes the key, `ts` stores the block timestamp, a literal is stored as it is, a union appends its operand to the old array or `[]`, a remove filters the old array or `[]`, and an inc adds to the field or to 0 |
| Rules.Split | src/contracts/lib/utils.js:76 | splitting gives at least one part and no part contains the separator |
| Rules.SplitJoin | src/contracts/lib/utils.js:76-77 | joining the parts with the separator gives the key back |
| Rules.SplitHasTwoParts | src/contracts/lib/utils.js:76-77 | a key has a second part, so `_ops.split` does not throw, exactly when it contains a space |
| Rules.SplitFirst | src/contracts/lib/utils.js:76 | the first separator ends the first part |
| Rules.CheckRules | src/contracts/lib/utils.js:65-99 | the rule loop grants exactly when no key is malformed, no applicable deny is true, and some applicable allow is true |
| Rules.DenyWins | src/contracts/lib/utils.js:96 | one true applicable deny rejects the call whatever the allows say |
| Rules.AllowNeeded | src/contracts/lib/utils.js:99 | without a true applicable allow the call is rejected, so an empty rule list admits no write |
| Rules.OpClass | src/contracts/lib/utils.js:55-64 | the rules see the function itself, "create" or "update"; a document with data never yields "create", and one without data yields "update" only for an update |
| Rules.OpClassTable | src/contracts/lib/utils.js:55-64 | set and upsert become create, or update when the document has data; update and delete are unchanged; add stays "add" |
| Rules.CreateUpdateKey | test/test.js:297 | the key "allow create,update" is an allow that applies to create and to update |
| Tree.GetDoc | src/contracts/lib/utils.js:43-109 | `getDoc` fails only with the generic error, and on success the tree only grows |
| Tree.GetCol | src/contracts/lib/utils.js:111-127 | `getCol` adds the path's first collection if missing, keeps its rules and schema, and leaves every other top-level collection untouched |
| Tree.ProposedWhen | src/contracts/lib/utils.js:66-73 | only the last level of a set, add, update or upsert computes the would-be data; every other call gives the rules none |
| Tree.ProposedFails | src/contracts/lib/utils.js:67-72 | the would-be data fails exactly when the payload holds a malformed operator |
| Tree.ProposedSet | src/contracts/lib/utils.js:68-69 | for set and add the would-be data ignores what the document held and has only payload keys |
| Tree.ProposedUpdate | src/contracts/lib/utils.js:70-71 | for update and upsert a field the payload does not name keeps its value in the would-be data |
| Tree.GateOpen | src/contracts/lib/utils.js:51-54 | a read always passes a level's gate, and so does a write to a collection without rules |
| Tree.GateClosed | src/contracts/lib/utils.js:65-99 | a write fails a level's gate when the collection's rule list is empty, and at the last level when its payload holds a malformed operator |
| Tree.GateNeedsAllow | src/contracts/lib/utils.js:74-99 | a write passes a gate with rules only through a well-formed allow rule |
| Tree.KeyCoercion | src/contracts/lib/utils.js:44-48 | path elements are property keys: two paths whose elements have the same string form address the same document with the same outcome |
| Tree.NumberAndNullIds | src/contracts/lib/utils.js:44-48 | the id 5 and the id "5" are one document, and so are the ids null and "null" |
| Tree.Walk | src/contracts/lib/utils.js:43-109 | every failure of the walk is the generic wrong-query error |
| Tree.WalkGrows | src/contracts/lib/utils.js:44-50 | every collection and document the walk finds is still there afterwards at the same key path, with its rules, schema and data kept, and a setter once set never changes |
| Tree.WalkFrame | src/contracts/lib/utils.js:44-50 | the walk changes nothing off its key path: it creates collections and documents only along the path and stamps only path documents that had no setter |
| Tree.GetColGrows | src/contracts/lib/utils.js:111-127 | every collection and document `getCol` finds is still there afterwards, kept in the same way |
| Tree.GetColFrame | src/contracts/lib/utils.js:111-127 | `getCol` changes nothing off the key path it follows: it creates collections and documents only along that path and stamps only path documents that had no setter |
| Tree.WalkLevels | src/contracts/lib/utils.js:44-50 | after the walk, each level's collection exists with its old rules and schema, or none when the walk created it; each level's document exists with its old data, or null when created, and its old setter, or the signer if it had none |
| Tree.WalkTerminalAt | src/contracts/lib/utils.js:102-108 | the returned document is the one at the end of the path in the new tree |
| Tree.WalkTerminal | src/contracts/lib/utils.js:102-108 | the returned document is the one that was at the path, or a new one, stamped with the signer; it comes with the schema and rules of its collection |
| Tree.WalkGates | src/contracts/lib/utils.js:51-103 | `getDoc` succeeds exactly when every level's gate passes; each gate sees that level's collection and document as they were before the call, the document stamped with the signer when it had no setter, and only the first level sees the payload |
| Tree.ReadsResolve | src/contracts/lib/utils.js:52 | a function that is not a write always resolves a well-formed document path |
| Tree.UnforwardedPayload | src/contracts/lib/utils.js:67-72 | the rules of a deeper terminal document see `{}` as the would-be data for set and add, and the current data for update and upsert |
| Tree.ColAtDeeper | src/contracts/lib/utils.js:118-124 | below the first level, the collection at a key path is the one at the tail under the first document, and an absent document has none |
| Tree.GetColResolves | src/contracts/lib/utils.js:111-127 | `getCol` returns the collection at the key path it follows (up to the first missing or null id); it is the old collection or a new empty one |
| Tree.GetColLevels | src/contracts/lib/utils.js:111-127 | after `getCol`, each collection on the key path it follows exists with its old rules and schema, or none when created; each document on it exists with its old data, or null when created, and its old setter, or the signer if it had none |
| Tree.ColPathKeys | src/contracts/lib/utils.js:111-127 | when no id is null, that key path is the path's own keys, followed by `undefined` for an even path |
| Tree.NullIdStops | src/contracts/lib/utils.js:112-115 | a null id stops `getCol` at the collection before it, whatever follows, and only that collection is added |
| Ids.HexByte | src/contracts/lib/utils.js:132 | each byte becomes two lower-case hex digits of the same value |
| Ids.HexAppend | src/contracts/lib/utils.js:132 | appending two hex digits multiplies the value so far by 256 |
| Ids.BigIntFromBytes | src/contracts/lib/utils.js:129-135 | the hex loop yields the big-endian value of the bytes, and fails on an empty input |
| Ids.IdChar | src/contracts/lib/utils.js:154-156 | `charAt(r - 1)` gives one alphabet character, or nothing exactly when `r - 1` is out of range |
| Ids.RandomInt | src/contracts/lib/utils.js:147 | a random draw is below the alphabet size |
| Ids.GenId | src/contracts/lib/utils.js:150-159 | the loop draws twenty values and appends `charAt(r - 1)` for each; it fails exactly when some digest is unusable |
| Ids.IdShape | src/contracts/lib/utils.js:153-157 | the id has 20 characters less one per draw of 0, and never contains '9' |
| Ids.IdLength | src/contracts/lib/utils.js:155-157 | an id has one character per draw except for draws of 0 |
| Ids.IdAlphabet | src/contracts/lib/utils.js:151 | every id character is in the alphabet without its last letter '9' |
| Parse.SplitQuery | src/contracts/lib/utils.js:166-178 | the payload is the first query element unless the query is the path alone; `add` appends the drawn id to the path and to the transaction's id list |
| Parse.Resolve | src/contracts/lib/utils.js:190-197 | the schema and rules functions resolve with `getCol`, every other function with `getDoc`; the tree only grows |
| Parse.Admit | src/contracts/lib/utils.js:198-212 | after resolution the call is refused exactly when an owner-only function comes from a non-owner (the owner error) or a validated write fails its schema (the generic error); the empty branch for other people's documents changes nothing |
| Parse.Parse | src/contracts/lib/utils.js:161-213 | accepts exactly when the path can be formed, the request is well shaped, `getDoc` passes its gates, an owner-only function comes from the owner, and a validated write passes its schema; a non-owner gets the owner error; it returns the payload, the path, the grown tree and the owner unchanged |
| Parse.StrangerMayUpdate | src/contracts/lib/utils.js:198-201 | an update by a signer other than the document's setter is accepted when the collection has no rules and no schema, and the setter is kept |

## Left out

- The rule expression language (json-logic) and the JSON-schema validator
  (schemasafe) are foreign libraries. They are the parameters `eval` and
  `validate`. `eval` returns the truthiness of what the rule evaluates
  to, and nothing is assumed about `validate`.
- Rules.CheckRules: `eval` is total. json-logic's `apply` throws on an
  operation it does not know, and a throwing applicable rule fails the
  whole call, even after an earlier `allow` fired. With the rules
  `allow write: true` then `allow write: {"nosuch": []}`, the source
  rejects a write that `Rules.Authorized` admits. `Rules.Authorized`,
  `Rules.CheckRules` and `Tree.WalkGates` describe the source for an
  evaluator that does not throw.
- The host hash of the id seed is not modelled. The seed is made of block
  height, timestamp, transaction id, caller and position. `digest` gives
  the hash bytes of each position. How the seed string is put together is
  not part of this model.
- The contract dispatcher (`src/contracts/contract.js`) is not part of
  this model, and neither are the action handlers that call `parse` and
  then store the merged data. Queries, indexes, cursors and batches are
  not part of this model either.
- Numbers are integers. Floating point, NaN and `isNaN`'s coercion of
  numeric strings are not modelled.
- Merge.FieldUpdate: an `inc` whose operand is not a number is an error,
  whereas `isNaN` also accepts numeric strings, booleans, null, the empty
  string, the empty array and one-element arrays of a number. `+=` then
  coerces a boolean or null to a number, and with a string or array
  operand it makes the field a string.
- Rules.CheckRules: a rule key without a space throws a `TypeError` in the
  source rather than the contract's own error. Both are reported as the
  generic wrong-query error, because the host discards the interaction
  either way.
- Rules are an ordered list of key/expression pairs. The object the
  source iterates cannot hold two rules with the same key; the list can,
  and everything proved holds for it.
- Aliasing is not modelled. The source returns references into the tree,
  which callers later mutate. The model returns values.
- Property names such as `constructor`, which JavaScript objects inherit,
  are not modelled as special.
- Strings are sequences of Unicode scalar values, whereas JavaScript
  strings are UTF-16 code units. The only visible effect is on `for…in`
  over a string payload: the model gives one key per character, and
  JavaScript gives one per code unit, so a character outside the Basic
  Multilingual Plane counts once here and twice there.
- The order in which `for…in` visits a payload's keys is not fixed.
  `Merge.MergeData` is proved for any order.
