# Event-record model of a token-sale event listener

This project models the core of a small Node.js service. The service listens to a token-sale contract (TokenICO) and its ERC20 token. It turns each `Purchase`, `Referral` and `Transfer` event into a document and inserts that document into a MongoDB collection. The core has two parts:

- **The event document schema** (`models/Event.js`). This is a Mongoose schema that acts as a discriminated union. The tag `event` must be `Purchase`, `Referral` or `Transfer`. Each other string path is required exactly when the tag has certain values. `timestamp` is optional and defaults to the creation time. The module `EventSchema` models a document as `Record`, an `event` tag plus optional fields. `Violations` gives the set of paths that fail validation, and `Valid` holds when that set is empty. `ValidByKind` is an independent per-kind definition of the same rule, and a lemma proves the two agree.
- **The listener** (`eventListener.js`). It has three callbacks. Each one builds an object literal from the decoded event arguments and passes it to `saveEventToMongoDB`. That function makes one `insertOne` attempt and logs and swallows any error. The module `EventListener` models:
  - each builder as a pure function;
  - the collection as the class `EventStore`, a sequence of documents, with a `Save` method;
  - the callbacks as methods that build a document and save it;
  - a run of many callbacks as the function `Ingest`.

  The main cross-file result is this: every document a builder produces satisfies the schema, provided the address arguments and the rendered amounts are non-empty. The same holds for every document a run inserts. The source never checks this itself. It writes through the raw collection, not through the Mongoose model.

Modelling choices:
- Mongoose's `required` on a String path accepts only a non-empty string. `undefined`, `null` and `""` all fail. `Present` models this.
- A document that lacks `event`, or whose `event` is outside the enum, fails on the single path `event`.
- `ethers.utils.formatUnits` is a foreign call. It is the function parameter `formatUnits: (int, nat) -> string`. Wherever it matters, it is applied with the constant 18. No particular rendering is assumed. Conformance assumes only that the renderer never yields `""` at 18 decimals.
- The clock reads (`new Date()` in the builders, `Date.now` as the schema default) are the parameter `now`, in milliseconds.
- The outcome of `insertOne` is the parameter `insertSucceeds`.

The service's write path, as the code has it:
- Writes are plain inserts. There is no natural key and no upsert, so duplicates are stored. `DuplicatesAreStoredTwice` proves this.
- A failed insert is logged and dropped. There are no retries, no backoff and no dead-letter path.
- The collection does not enforce the schema.
- There is no reconnect or drain state machine.

## Model

| member | source | states |
|---|---|---|
| `EventSchema.Violations` | models/Event.js:4-56 | The path `event` fails exactly when the tag is missing or outside the enum. Each string path fails exactly when its `required` function holds for the tag and the value is not a non-empty string. |
| `EventSchema.ValidIffValidByKind` | models/Event.js:5-51 | In both directions, the path-by-path rule is the same as the per-kind rule. Purchase needs `user` and `tokenAmount`. Referral needs `referrer`, `user` and `referralBonus`. Transfer needs `from`, `to` and `amount`. Any other tag is invalid. |
| `EventSchema.TagMustBeInEnum` | models/Event.js:5-9 | A valid document's tag is present and in the enum. A tag outside the enum makes the document invalid. |
| `EventSchema.UserRequiredExactly` | models/Event.js:10-15 | `user` fails exactly when the tag is Purchase or Referral and `user` is absent or empty. |
| `EventSchema.ReferralFieldsRequiredExactly` | models/Event.js:16-21 | `referrer` and `referralBonus` each fail exactly when the tag is Referral and the field is absent or empty. The `referralBonus` path is at models/Event.js:28-33. |
| `EventSchema.TokenAmountRequiredExactly` | models/Event.js:22-27 | `tokenAmount` fails exactly when the tag is Purchase and the field is absent or empty. |
| `EventSchema.TransferFieldsRequiredExactly` | models/Event.js:34-51 | `from`, `to` and `amount` each fail exactly when the tag is Transfer and the field is absent or empty. |
| `EventSchema.OptionalFieldsNotForbidden` | models/Event.js:10-51 | Setting or unsetting a field that the tag does not require never changes whether the document is valid. |
| `EventSchema.TimestampNeverRequired` | models/Event.js:52-55 | Validity does not depend on `timestamp`. |
| `EventSchema.WithDefaults` | models/Event.js:52-55 | After defaults, a timestamp is always present. An existing timestamp is kept. A missing one becomes the creation time. No other field changes, and validity is unchanged. |
| `EventListener.Subscriptions` | eventListener.js:51-78 | There are three registrations, and their event names are exactly the schema's enum, in order. |
| `EventListener.RoutingIsFixed` | eventListener.js:15-19 | A (contract, name) pair is subscribed exactly when it is Purchase or Referral on `CONTRACT_ADDRESS`, or Transfer on the hard-coded ERC20 address. |
| `EventListener.EventName` | eventListener.js:51-80 | Every event's name lies in the schema's enum. |
| `EventListener.Emitter` | eventListener.js:51-78 | Every event arrives through one of the registered subscriptions. |
| `EventListener.PurchaseRecord` | eventListener.js:52-57 | The tag is Purchase, which the enum admits. `user` is passed through unchanged. `tokenAmount` is `formatUnits(tokenAmount, 18)`. `timestamp` is `now`. The document is valid exactly when `user` and the rendered amount are non-empty. |
| `EventListener.ReferralRecord` | eventListener.js:65-71 | The tag is Referral. `referrer` and `user` are passed through unchanged and in argument order. `referralBonus` is `formatUnits(referralBonus, 18)`. The document is valid exactly when both addresses and the rendered amount are non-empty. |
| `EventListener.TransferRecord` | eventListener.js:79-85 | The tag is Transfer. `from` and `to` are passed through unchanged. `amount` is `formatUnits(amount, 18)`. The document is valid exactly when both addresses and the rendered amount are non-empty. |
| `EventListener.Build` | eventListener.js:51-89 | The callback chosen by the event's name builds a document whose tag is that name and whose timestamp is `now`. The document is valid exactly when the event's addresses and rendered amount are non-empty. |
| `EventListener.BuiltRecordsConform` | eventListener.js:52-85 | With non-empty addresses and a renderer that never yields `""` at 18 decimals, every built document satisfies the schema, and the schema's timestamp default never changes it. |
| `EventListener.EventStore.Save` | eventListener.js:40-48 | One insert attempt. On success the collection grows by exactly that document. On failure it is unchanged and no error escapes. |
| `EventListener.OnPurchase` | eventListener.js:51-61 | The Purchase callback makes exactly one save attempt, with the Purchase document. |
| `EventListener.OnReferral` | eventListener.js:64-75 | The Referral callback makes exactly one save attempt, with the Referral document. |
| `EventListener.OnTransfer` | eventListener.js:78-89 | The Transfer callback makes exactly one save attempt, with the Transfer document. |
| `EventListener.OnEvent` | eventListener.js:51-89 | Handling one delivered event changes the collection exactly as a one-event run does. |
| `EventListener.Ingest` | eventListener.js:40-89 | After a run, the collection's old contents are a prefix of the new contents. It grows by exactly the number of successful inserts. |
| `EventListener.IngestAppendsInserted` | eventListener.js:40-89 | A run appends exactly the documents of its successful inserts, in arrival order. |
| `EventListener.IngestConcat` | eventListener.js:40-89 | Running two batches one after the other is the same as running their concatenation. |
| `EventListener.IngestKeepsValid` | eventListener.js:40-89 | Suppose a collection holds only valid documents, every address argument is non-empty, and the renderer never yields `""` at 18 decimals. Then after any run it still holds only valid documents. |
| `EventListener.DuplicatesAreStoredTwice` | eventListener.js:43 | There is no natural key or upsert. The same event delivered twice, with both inserts succeeding, is stored twice. |
| `EventListener.FailedInsertChangesNothing` | eventListener.js:45-47 | A delivery whose insert fails leaves the collection as it was. |

## Left out

- Provider and contract objects (`JsonRpcProvider`, `new ethers.Contract`) and callback registration with `contract.on`: these are network I/O. Events arrive as decoded arguments, and the registrations are modelled as data (`Subscriptions`).
- ABI decoding and the internals of `ethers.utils.formatUnits`: these are foreign code. The renderer is a parameter, and no rendering such as `"1.0"` is claimed.
- MongoDB connection handling: `MongoClient`, the per-save `connect`/`db`/`collection`, and `process.exit(1)` when connecting fails. These are driver I/O. A failed connect ends the process, which the model does not represent.
- `EventListener.EventStore.Save`: it assumes that an `insertOne` that throws wrote nothing. The driver can report an error after a write that did happen.
- The `_id` that `insertOne` adds to each document, and `result.insertedId`: these are driver-generated values and are not modelled.
- Mongoose type casting, strict mode and the model object `mongoose.model('Event', …)`: the listener never writes through the model. Only the schema's required/enum/default rules are modelled.
- `dotenv`, reading the ABI files, environment lookups and `console.log`/`console.error`: these are startup and logging side effects.
- Clock reads (`new Date()`, `Date.now`): these are passed in as the parameter `now`.
- The concurrent interleaving of the asynchronous callbacks, and the SIGINT handler that closes the client: concurrency and process signals are outside the model. A run (`Ingest`) treats the callbacks as sequential.
