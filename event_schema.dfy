/**
 * The shape of a stored event document and the rule that validates it
 * (the Mongoose schema `eventSchema` of models/Event.js).
 *
 * A document is an open bag of optional string fields plus a tag `event`.
 * The tag must be one of three kinds, and each other string field is
 * required exactly when the tag has certain values. A required String path
 * is satisfied only by a non-empty string (Mongoose rejects `undefined`,
 * `null` and `""` alike). `timestamp` is never required and defaults to the
 * creation time.
 */
module EventSchema {
  import opened Wrappers

  /** Milliseconds since the epoch: the value of a JavaScript `Date`. */
  type Timestamp = int

  /** The values the `event` enum admits, in the schema's order. */
  const EventKinds: seq<string> := ["Purchase", "Referral", "Transfer"]

  /** The string-valued paths of the schema other than `event`. */
  datatype Field = User | Referrer | TokenAmount | ReferralBonus | From | To | Amount

  /** A path that validation can report as failing. */
  datatype Path = EventPath | FieldPath(field: Field)

  /** An event document; `None` is a field the document does not set. */
  datatype Record = Record(
    event: Option<string>,
    user: Option<string>,
    referrer: Option<string>,
    tokenAmount: Option<string>,
    referralBonus: Option<string>,
    from: Option<string>,
    to: Option<string>,
    amount: Option<string>,
    timestamp: Option<Timestamp>)

  /** The value of a string path. */
  function Get(r: Record, f: Field): Option<string>
  {
    match f
    case User => r.user
    case Referrer => r.referrer
    case TokenAmount => r.tokenAmount
    case ReferralBonus => r.referralBonus
    case From => r.from
    case To => r.to
    case Amount => r.amount
  }

  /** The document with one string path set to `v` (or unset, for `None`). */
  function Set(r: Record, f: Field, v: Option<string>): (r': Record)
    ensures Get(r', f) == v
    ensures forall g :: g != f ==> Get(r', g) == Get(r, g)
    ensures r'.event == r.event && r'.timestamp == r.timestamp
  {
    match f
    case User => r.(user := v)
    case Referrer => r.(referrer := v)
    case TokenAmount => r.(tokenAmount := v)
    case ReferralBonus => r.(referralBonus := v)
    case From => r.(from := v)
    case To => r.(to := v)
    case Amount => r.(amount := v)
  }

  /** What Mongoose's `required` accepts for a String path. */
  predicate Present(v: Option<string>)
  {
    v.Some? && |v.value| > 0
  }

  /** The `event` path: required, and one of the enum's values. */
  predicate TagValid(event: Option<string>)
  {
    event.Some? && event.value in EventKinds
  }

  /** The schema's `required` function of each string path, over `this.event`. */
  predicate Required(f: Field, event: Option<string>)
  {
    match f
    case User => event == Some("Purchase") || event == Some("Referral")
    case Referrer => event == Some("Referral")
    case TokenAmount => event == Some("Purchase")
    case ReferralBonus => event == Some("Referral")
    case From => event == Some("Transfer")
    case To => event == Some("Transfer")
    case Amount => event == Some("Transfer")
  }

  /** The paths whose validator fails: the keys of the validation error. */
  function Violations(r: Record): (errs: set<Path>)
    ensures EventPath in errs <==> !TagValid(r.event)
    ensures forall f :: FieldPath(f) in errs <==> Required(f, r.event) && !Present(Get(r, f))
  {
    var fieldErrs := set f: Field | Required(f, r.event) && !Present(Get(r, f)) :: FieldPath(f);
    (if TagValid(r.event) then {} else {EventPath}) + fieldErrs
  }

  /** The document passes validation: no path fails. */
  predicate Valid(r: Record)
  {
    Violations(r) == {}
  }

  /**
   * Reference definition: the same rule read as a discriminated union, each
   * kind listing exactly the fields it needs.
   */
  predicate ValidByKind(r: Record)
  {
    if r.event == Some("Purchase") then
      Present(r.user) && Present(r.tokenAmount)
    else if r.event == Some("Referral") then
      Present(r.referrer) && Present(r.user) && Present(r.referralBonus)
    else if r.event == Some("Transfer") then
      Present(r.from) && Present(r.to) && Present(r.amount)
    else
      false
  }

  /** The path-by-path rule and the per-kind reading agree on every document. */
  lemma ValidIffValidByKind(r: Record)
    ensures Valid(r) <==> ValidByKind(r)
  {
    if Valid(r) {
      forall f | Required(f, r.event) ensures Present(Get(r, f)) {
        assert FieldPath(f) !in Violations(r);
      }
      assert Required(User, r.event) ==> Present(r.user);
      assert Required(Referrer, r.event) ==> Present(r.referrer);
      assert Required(TokenAmount, r.event) ==> Present(r.tokenAmount);
      assert Required(ReferralBonus, r.event) ==> Present(r.referralBonus);
      assert Required(From, r.event) ==> Present(r.from);
      assert Required(To, r.event) ==> Present(r.to);
      assert Required(Amount, r.event) ==> Present(r.amount);
    }
    if ValidByKind(r) {
      assert TagValid(r.event);
      assert forall f :: Required(f, r.event) ==> Present(Get(r, f));
    }
  }

  /** A missing tag, or any tag outside the enum, makes the document invalid. */
  lemma TagMustBeInEnum(r: Record)
    ensures Valid(r) ==> r.event.Some? && r.event.value in EventKinds
    ensures r.event.Some? && r.event.value !in EventKinds ==> !Valid(r)
  {
  }

  /** `user` is required exactly for purchases and referrals. */
  lemma UserRequiredExactly(r: Record)
    ensures FieldPath(User) in Violations(r) <==>
      (r.event == Some("Purchase") || r.event == Some("Referral")) && !Present(r.user)
  {
  }

  /** `referrer` and `referralBonus` are required exactly for referrals. */
  lemma ReferralFieldsRequiredExactly(r: Record)
    ensures FieldPath(Referrer) in Violations(r) <==> r.event == Some("Referral") && !Present(r.referrer)
    ensures FieldPath(ReferralBonus) in Violations(r) <==> r.event == Some("Referral") && !Present(r.referralBonus)
  {
  }

  /** `tokenAmount` is required exactly for purchases. */
  lemma TokenAmountRequiredExactly(r: Record)
    ensures FieldPath(TokenAmount) in Violations(r) <==> r.event == Some("Purchase") && !Present(r.tokenAmount)
  {
  }

  /** `from`, `to` and `amount` are required exactly for transfers. */
  lemma TransferFieldsRequiredExactly(r: Record)
    ensures FieldPath(From) in Violations(r) <==> r.event == Some("Transfer") && !Present(r.from)
    ensures FieldPath(To) in Violations(r) <==> r.event == Some("Transfer") && !Present(r.to)
    ensures FieldPath(Amount) in Violations(r) <==> r.event == Some("Transfer") && !Present(r.amount)
  {
  }

  /**
   * A field the document's kind does not require is optional, not
   * forbidden: setting or unsetting it never changes the verdict.
   */
  lemma OptionalFieldsNotForbidden(r: Record, f: Field, v: Option<string>)
    requires !Required(f, r.event)
    ensures Valid(Set(r, f, v)) <==> Valid(r)
  {
  }

  /** `timestamp` takes no part in validation. */
  lemma TimestampNeverRequired(r: Record, t: Option<Timestamp>)
    ensures Valid(r.(timestamp := t)) <==> Valid(r)
  {
  }

  /**
   * The schema's default: a document created without a `timestamp` gets the
   * creation time; one that has a timestamp keeps it.
   */
  function WithDefaults(r: Record, now: Timestamp): (r': Record)
    ensures r'.timestamp.Some?
    ensures r.timestamp.Some? ==> r' == r
    ensures r.timestamp.None? ==> r'.timestamp == Some(now)
    ensures r'.(timestamp := r.timestamp) == r
    ensures Valid(r') <==> Valid(r)
  {
    TimestampNeverRequired(r, Some(now));
    if r.timestamp.Some? then r else r.(timestamp := Some(now))
  }
}
