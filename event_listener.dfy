/**
 * The listener of eventListener.js: three contract-event callbacks that each
 * turn decoded event arguments into an event document and hand it to
 * `saveEventToMongoDB`, which makes one `insertOne` attempt on the raw
 * collection and logs and swallows any insert error.
 *
 * The chain, the decoder and the database driver are outside the model:
 * an event arrives as already-decoded arguments, `ethers.utils.formatUnits`
 * is the parameter `formatUnits`, the clock read `new Date()` is the
 * parameter `now`, and whether the insert succeeds is the parameter
 * `insertSucceeds`. The collection is a sequence of documents.
 */
module EventListener {
  import opened Wrappers
  import opened EventSchema

  /** An address as ethers decodes it: a hex string. */
  type Address = string

  /** `ethers.utils.formatUnits(value, decimals)`, a foreign rendering. */
  type Formatter = (int, nat) -> string

  /** The decimals every amount is rendered with. */
  const Decimals: nat := 18

  /** The ERC20 token contract, hard-coded in the listener. */
  const ERC20Address: Address := "0x2C93585092Cf52Ce8B0947cB7A2680d17F2887D0"

  /** The renderer never yields the empty string at the decimals the listener uses. */
  ghost predicate NonEmptyRenderings(formatUnits: Formatter)
  {
    forall v: int :: |formatUnits(v, Decimals)| > 0
  }

  // ---------------------------------------------------------------------------
  // Subscriptions

  /** One `contract.on(eventName, callback)` registration. */
  datatype Subscription = Subscription(contract: Address, eventName: string)

  /**
   * The three registrations, given the TokenICO address `CONTRACT_ADDRESS`:
   * every event name subscribed to is one the schema's enum admits.
   */
  function Subscriptions(contractAddress: Address): (subs: seq<Subscription>)
    ensures |subs| == |EventKinds|
    ensures forall i :: 0 <= i < |subs| ==> subs[i].eventName == EventKinds[i]
  {
    [ Subscription(contractAddress, "Purchase"),
      Subscription(contractAddress, "Referral"),
      Subscription(ERC20Address, "Transfer") ]
  }

  /**
   * Routing is fixed: `Purchase` and `Referral` are heard only from the
   * TokenICO contract, `Transfer` only from the ERC20 contract.
   */
  lemma RoutingIsFixed(contractAddress: Address, emitter: Address, eventName: string)
    ensures Subscription(emitter, eventName) in Subscriptions(contractAddress) <==>
      || ((eventName == "Purchase" || eventName == "Referral") && emitter == contractAddress)
      || (eventName == "Transfer" && emitter == ERC20Address)
  {
  }

  // ---------------------------------------------------------------------------
  // Decoded events and the documents built from them

  /** The decoded arguments of one event, in the order the ABI declares them. */
  datatype ChainEvent =
    | Purchase(user: Address, tokenAmount: int)
    | Referral(referrer: Address, user: Address, referralBonus: int)
    | Transfer(from: Address, to: Address, amount: int)

  /** The name the event is subscribed under. */
  function EventName(e: ChainEvent): (name: string)
    ensures name in EventKinds
  {
    match e
    case Purchase(_, _) => "Purchase"
    case Referral(_, _, _) => "Referral"
    case Transfer(_, _, _) => "Transfer"
  }

  /** The contract whose subscription delivers the event. */
  function Emitter(e: ChainEvent, contractAddress: Address): (emitter: Address)
    ensures Subscription(emitter, EventName(e)) in Subscriptions(contractAddress)
  {
    if e.Transfer? then ERC20Address else contractAddress
  }

  /** The Purchase callback's document. */
  function PurchaseRecord(user: Address, tokenAmount: int, now: Timestamp, formatUnits: Formatter): (r: Record)
    ensures TagValid(r.event) && r.event == Some("Purchase")
    ensures r.user == Some(user)
    ensures r.tokenAmount == Some(formatUnits(tokenAmount, Decimals))
    ensures r.timestamp == Some(now)
    ensures Valid(r) <==> |user| > 0 && |formatUnits(tokenAmount, Decimals)| > 0
  {
    var r := Record(
      event := Some("Purchase"),
      user := Some(user),
      referrer := None,
      tokenAmount := Some(formatUnits(tokenAmount, Decimals)),
      referralBonus := None,
      from := None,
      to := None,
      amount := None,
      timestamp := Some(now));
    ValidIffValidByKind(r);
    r
  }

  /** The Referral callback's document. */
  function ReferralRecord(referrer: Address, user: Address, referralBonus: int, now: Timestamp,
                          formatUnits: Formatter): (r: Record)
    ensures TagValid(r.event) && r.event == Some("Referral")
    ensures r.referrer == Some(referrer) && r.user == Some(user)
    ensures r.referralBonus == Some(formatUnits(referralBonus, Decimals))
    ensures r.timestamp == Some(now)
    ensures Valid(r) <==> |referrer| > 0 && |user| > 0 && |formatUnits(referralBonus, Decimals)| > 0
  {
    var r := Record(
      event := Some("Referral"),
      user := Some(user),
      referrer := Some(referrer),
      tokenAmount := None,
      referralBonus := Some(formatUnits(referralBonus, Decimals)),
      from := None,
      to := None,
      amount := None,
      timestamp := Some(now));
    ValidIffValidByKind(r);
    r
  }

  /** The Transfer callback's document. */
  function TransferRecord(from: Address, to: Address, amount: int, now: Timestamp,
                          formatUnits: Formatter): (r: Record)
    ensures TagValid(r.event) && r.event == Some("Transfer")
    ensures r.from == Some(from) && r.to == Some(to)
    ensures r.amount == Some(formatUnits(amount, Decimals))
    ensures r.timestamp == Some(now)
    ensures Valid(r) <==> |from| > 0 && |to| > 0 && |formatUnits(amount, Decimals)| > 0
  {
    var r := Record(
      event := Some("Transfer"),
      user := None,
      referrer := None,
      tokenAmount := None,
      referralBonus := None,
      from := Some(from),
      to := Some(to),
      amount := Some(formatUnits(amount, Decimals)),
      timestamp := Some(now));
    ValidIffValidByKind(r);
    r
  }

  /** Every address argument of the event is a non-empty string. */
  predicate AddressesPresent(e: ChainEvent)
  {
    match e
    case Purchase(user, _) => |user| > 0
    case Referral(referrer, user, _) => |referrer| > 0 && |user| > 0
    case Transfer(from, to, _) => |from| > 0 && |to| > 0
  }

  /** The amount argument of the event, in base units. */
  function BaseUnits(e: ChainEvent): int
  {
    match e
    case Purchase(_, tokenAmount) => tokenAmount
    case Referral(_, _, referralBonus) => referralBonus
    case Transfer(_, _, amount) => amount
  }

  /** The document the callback subscribed under the event's name builds. */
  function Build(e: ChainEvent, now: Timestamp, formatUnits: Formatter): (r: Record)
    ensures r.event == Some(EventName(e))
    ensures r.timestamp == Some(now)
    ensures Valid(r) <==> AddressesPresent(e) && |formatUnits(BaseUnits(e), Decimals)| > 0
  {
    match e
    case Purchase(user, tokenAmount) => PurchaseRecord(user, tokenAmount, now, formatUnits)
    case Referral(referrer, user, referralBonus) => ReferralRecord(referrer, user, referralBonus, now, formatUnits)
    case Transfer(from, to, amount) => TransferRecord(from, to, amount, now, formatUnits)
  }

  /**
   * Builder-to-schema conformance: with non-empty addresses and a renderer
   * that never yields "", every built document satisfies the schema, and the
   * schema's timestamp default never fires on it.
   */
  lemma BuiltRecordsConform(e: ChainEvent, now: Timestamp, later: Timestamp, formatUnits: Formatter)
    requires AddressesPresent(e) && NonEmptyRenderings(formatUnits)
    ensures Valid(Build(e, now, formatUnits))
    ensures WithDefaults(Build(e, now, formatUnits), later) == Build(e, now, formatUnits)
  {
  }

  // ---------------------------------------------------------------------------
  // The collection and the callbacks

  /** The raw collection the listener writes to. */
  class EventStore {
    var stored: seq<Record>

    constructor ()
      ensures stored == []
    {
      stored := [];
    }

    /**
     * `saveEventToMongoDB`: one `insertOne` attempt. On success the collection
     * grows by exactly that document; on an insert error it is unchanged and
     * the error does not escape. The document is not validated against the
     * schema, and nothing is deduplicated.
     */
    method Save(eventData: Record, insertSucceeds: bool)
      modifies this
      ensures stored == Saved(old(stored), eventData, insertSucceeds)
    {
      if insertSucceeds {
        stored := stored + [eventData];
      }
    }
  }

  /** The Purchase callback. */
  method OnPurchase(store: EventStore, user: Address, tokenAmount: int, now: Timestamp,
                    formatUnits: Formatter, insertSucceeds: bool)
    modifies store
    ensures store.stored == Saved(old(store.stored), PurchaseRecord(user, tokenAmount, now, formatUnits), insertSucceeds)
  {
    var eventData := PurchaseRecord(user, tokenAmount, now, formatUnits);
    store.Save(eventData, insertSucceeds);
  }

  /** The Referral callback. */
  method OnReferral(store: EventStore, referrer: Address, user: Address, referralBonus: int, now: Timestamp,
                    formatUnits: Formatter, insertSucceeds: bool)
    modifies store
    ensures store.stored == Saved(old(store.stored), ReferralRecord(referrer, user, referralBonus, now, formatUnits), insertSucceeds)
  {
    var eventData := ReferralRecord(referrer, user, referralBonus, now, formatUnits);
    store.Save(eventData, insertSucceeds);
  }

  /** The Transfer callback. */
  method OnTransfer(store: EventStore, from: Address, to: Address, amount: int, now: Timestamp,
                    formatUnits: Formatter, insertSucceeds: bool)
    modifies store
    ensures store.stored == Saved(old(store.stored), TransferRecord(from, to, amount, now, formatUnits), insertSucceeds)
  {
    var eventData := TransferRecord(from, to, amount, now, formatUnits);
    store.Save(eventData, insertSucceeds);
  }

  // ---------------------------------------------------------------------------
  // A run of the listener: callbacks one after another

  /** One callback invocation: the event, the clock reading, the insert outcome. */
  datatype Delivery = Delivery(event: ChainEvent, now: Timestamp, insertSucceeds: bool)

  /**
   * The collection after one save attempt: on success it grows by exactly
   * that document, on an insert error it is unchanged.
   */
  function Saved(stored: seq<Record>, eventData: Record, insertSucceeds: bool): seq<Record>
  {
    if insertSucceeds then stored + [eventData] else stored
  }

  /** The callback the ethers dispatcher picks for the event. */
  method OnEvent(store: EventStore, d: Delivery, formatUnits: Formatter)
    modifies store
    ensures store.stored == Ingest(old(store.stored), [d], formatUnits)
  {
    match d.event
    case Purchase(user, tokenAmount) =>
      OnPurchase(store, user, tokenAmount, d.now, formatUnits, d.insertSucceeds);
    case Referral(referrer, user, referralBonus) =>
      OnReferral(store, referrer, user, referralBonus, d.now, formatUnits, d.insertSucceeds);
    case Transfer(from, to, amount) =>
      OnTransfer(store, from, to, amount, d.now, formatUnits, d.insertSucceeds);
  }

  /** How many of the deliveries' inserts succeed. */
  function SuccessCount(ds: seq<Delivery>): nat
  {
    if ds == [] then 0 else (if ds[0].insertSucceeds then 1 else 0) + SuccessCount(ds[1..])
  }

  /** The documents the deliveries insert, in arrival order. */
  function Inserted(ds: seq<Delivery>, formatUnits: Formatter): seq<Record>
  {
    if ds == [] then []
    else (if ds[0].insertSucceeds then [Build(ds[0].event, ds[0].now, formatUnits)] else [])
         + Inserted(ds[1..], formatUnits)
  }

  /**
   * The collection after the callbacks for `ds` run in order: it keeps what
   * it held and grows by one document per successful insert.
   */
  function Ingest(stored: seq<Record>, ds: seq<Delivery>, formatUnits: Formatter): (s: seq<Record>)
    ensures |s| == |stored| + SuccessCount(ds)
    ensures s[..|stored|] == stored
    decreases |ds|
  {
    if ds == [] then stored
    else
      var d := ds[0];
      Ingest(Saved(stored, Build(d.event, d.now, formatUnits), d.insertSucceeds), ds[1..], formatUnits)
  }

  /** A run appends exactly the documents of its successful inserts, in order. */
  lemma {:induction false} IngestAppendsInserted(stored: seq<Record>, ds: seq<Delivery>, formatUnits: Formatter)
    ensures Ingest(stored, ds, formatUnits) == stored + Inserted(ds, formatUnits)
    decreases |ds|
  {
    if ds != [] {
      var d := ds[0];
      var next := Saved(stored, Build(d.event, d.now, formatUnits), d.insertSucceeds);
      IngestAppendsInserted(next, ds[1..], formatUnits);
      assert next + Inserted(ds[1..], formatUnits) == stored + Inserted(ds, formatUnits);
    }
  }

  /** Running two batches one after the other is running their concatenation. */
  lemma {:induction false} IngestConcat(stored: seq<Record>, ds1: seq<Delivery>, ds2: seq<Delivery>,
                                        formatUnits: Formatter)
    ensures Ingest(stored, ds1 + ds2, formatUnits) == Ingest(Ingest(stored, ds1, formatUnits), ds2, formatUnits)
    decreases |ds1|
  {
    if ds1 != [] {
      var d := ds1[0];
      assert (ds1 + ds2)[0] == d;
      assert (ds1 + ds2)[1..] == ds1[1..] + ds2;
      IngestConcat(Saved(stored, Build(d.event, d.now, formatUnits), d.insertSucceeds), ds1[1..], ds2, formatUnits);
    } else {
      assert ds1 + ds2 == ds2;
    }
  }

  /**
   * Conformance over a whole run: if the collection held only valid documents,
   * every address argument is non-empty and the renderer never yields "",
   * the collection still holds only valid documents.
   */
  lemma {:induction false} IngestKeepsValid(stored: seq<Record>, ds: seq<Delivery>, formatUnits: Formatter)
    requires forall i :: 0 <= i < |stored| ==> Valid(stored[i])
    requires forall i :: 0 <= i < |ds| ==> AddressesPresent(ds[i].event)
    requires NonEmptyRenderings(formatUnits)
    ensures forall i :: 0 <= i < |Ingest(stored, ds, formatUnits)| ==> Valid(Ingest(stored, ds, formatUnits)[i])
    decreases |ds|
  {
    if ds != [] {
      var d := ds[0];
      var r := Build(d.event, d.now, formatUnits);
      assert AddressesPresent(ds[0].event);
      BuiltRecordsConform(d.event, d.now, d.now, formatUnits);
      var next := Saved(stored, r, d.insertSucceeds);
      assert forall i :: 0 <= i < |next| ==> Valid(next[i]);
      IngestKeepsValid(next, ds[1..], formatUnits);
    }
  }

  /**
   * No natural key, no upsert: the same event delivered twice with both
   * inserts succeeding is stored twice.
   */
  lemma DuplicatesAreStoredTwice(stored: seq<Record>, d: Delivery, formatUnits: Formatter)
    requires d.insertSucceeds
    ensures Ingest(stored, [d, d], formatUnits) == stored + [Build(d.event, d.now, formatUnits), Build(d.event, d.now, formatUnits)]
  {
  }

  /** A failed insert leaves the collection as it was. */
  lemma FailedInsertChangesNothing(stored: seq<Record>, d: Delivery, formatUnits: Formatter)
    requires !d.insertSucceeds
    ensures Ingest(stored, [d], formatUnits) == stored
  {
  }
}
