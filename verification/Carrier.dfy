/** The carriers that take a handoff from the web to a freshly installed app: an install referrer
    and a clipboard payload, both a percent-encoded query string. */
module Carrier {
  import opened Common
  import opened WireInstant
  import opened Queries

  // ---------------------------------------------------------------- the carriers

  datatype CarrierError =
    | MalformedQuery
    | MissingField(field: Text)
    | MalformedInstant
    | UnrepresentableInstant

  datatype Outcome<T> = Good(value: T) | Bad(error: CarrierError)

  const TOKEN_FIELD: Text := "atomi_handoff"
  const EXPIRY_FIELD: Text := "atomi_handoff_expires"
  const MOUNT_FIELD: Text := "atomi_handoff_mount"
  const CLIPBOARD_MARKER: Text := "atomi-handoff:"
  const DEFAULT_MOUNT: Text := "/app-handoff"

  datatype Handoff = Handoff(token: Text, expiresAt: Instant)

  /** A handoff and the mount to redeem it against. */
  datatype Redeemable = Redeemable(handoff: Handoff, mount: Text)

  function MountOrDefault(mount: Text): Text {
    if mount == [] then DEFAULT_MOUNT else mount
  }

  /** The query values that carry a handoff. */
  function Fields(handoff: Handoff, expiry: Text, mount: Text): Values {
    Set(Set(Set(map[], TOKEN_FIELD, handoff.token), EXPIRY_FIELD, expiry), MOUNT_FIELD, MountOrDefault(mount))
  }

  function AndroidReferrer(handoff: Handoff, mount: Text): Outcome<Text> {
    var expiry := FormatInstant(handoff.expiresAt);
    if expiry.None? then Bad(UnrepresentableInstant)
    else Good(EncodeValues(Fields(handoff, expiry.value, mount)))
  }

  function ReadFields(values: Values): Outcome<Redeemable> {
    var token := Get(values, TOKEN_FIELD);
    if token == [] then Bad(MissingField(TOKEN_FIELD))
    else
      var expiry := ParseInstant(Get(values, EXPIRY_FIELD));
      if expiry.None? then Bad(MalformedInstant)
      else Good(Redeemable(Handoff(token, expiry.value), MountOrDefault(Get(values, MOUNT_FIELD))))
  }

  function ParseAndroidReferrer(referrer: Text): Outcome<Redeemable> {
    var values := ParseValues(referrer);
    if values.None? then Bad(MalformedQuery) else ReadFields(values.value)
  }

  function ClipboardPayload(handoff: Handoff, mount: Text): Outcome<Text> {
    var encoded := AndroidReferrer(handoff, mount);
    if encoded.Bad? then encoded else Good(CLIPBOARD_MARKER + encoded.value)
  }

  function ParseClipboardPayload(payload: Text): Outcome<Redeemable> {
    if CLIPBOARD_MARKER <= payload then ParseAndroidReferrer(payload[|CLIPBOARD_MARKER|..])
    else Bad(MissingField(CLIPBOARD_MARKER))
  }

  // ---------------------------------------------------------------- what the wire contract promises

  /** What a carrier built from these reads back as: the mount it was given, or the documented one for
      a blank. */
  function Carried(handoff: Handoff, mount: Text): Outcome<Redeemable> {
    if handoff.token == [] then Bad(MissingField("atomi_handoff"))
    else Good(Redeemable(handoff, if mount == [] then "/app-handoff" else mount))
  }

  lemma FieldsDiffer()
    ensures TOKEN_FIELD != EXPIRY_FIELD && TOKEN_FIELD != MOUNT_FIELD && EXPIRY_FIELD != MOUNT_FIELD
  {
    assert |TOKEN_FIELD| == 13 && |EXPIRY_FIELD| == 21 && |MOUNT_FIELD| == 19;
  }

  /** Values that hold a handoff's fields, and whatever else, are read as that handoff. */
  lemma FieldsAreRead(handoff: Handoff, expiry: Text, mount: Text, values: Values)
    requires FormatInstant(handoff.expiresAt) == Some(expiry)
    requires Get(values, TOKEN_FIELD) == handoff.token && Get(values, EXPIRY_FIELD) == expiry
    requires Get(values, MOUNT_FIELD) == mount || (mount == [] && Get(values, MOUNT_FIELD) == "/app-handoff")
    ensures ReadFields(values) == Carried(handoff, mount)
  {
    WireFormRoundTrips(handoff.expiresAt, expiry);
  }

  /** The pair at i is the first with its key. */
  ghost predicate Leads(pairs: seq<Pair>, i: nat, pair: Pair) {
    i < |pairs| && pairs[i] == pair && Lacks(pairs[..i], pair.key)
  }

  lemma LeadIsGot(pairs: seq<Pair>, i: nat, pair: Pair)
    requires Leads(pairs, i, pair)
    ensures Get(Collect(pairs), pair.key) == pair.value
  {
    assert pairs == pairs[..i] + [pair] + pairs[i + 1..];
    GetIsFirst(pairs[..i], pair, pairs[i + 1..]);
  }

  lemma LackedIsBlank(pairs: seq<Pair>, key: Text)
    requires Lacks(pairs, key)
    ensures Get(Collect(pairs), key) == []
  {
    CollectLacks(pairs, key);
  }

  /** A handoff's fields are read back wherever they stand among other parameters, in any order,
      as long as each is the first with its key; a carrier without the mount field means the
      default mount. */
  lemma FieldsSurviveCompany(handoff: Handoff, expiry: Text, mount: Text, pairs: seq<Pair>, i: nat, j: nat, k: nat)
    requires FormatInstant(handoff.expiresAt) == Some(expiry)
    requires Leads(pairs, i, Pair(TOKEN_FIELD, handoff.token)) && Leads(pairs, j, Pair(EXPIRY_FIELD, expiry))
    requires Leads(pairs, k, Pair(MOUNT_FIELD, mount)) || (Lacks(pairs, MOUNT_FIELD) && mount == [])
    ensures ParseAndroidReferrer(Encode(pairs)) == Carried(handoff, mount)
  {
    QueryRoundTrips(pairs);
    LeadIsGot(pairs, i, Pair(TOKEN_FIELD, handoff.token));
    LeadIsGot(pairs, j, Pair(EXPIRY_FIELD, expiry));
    if Lacks(pairs, MOUNT_FIELD) {
      LackedIsBlank(pairs, MOUNT_FIELD);
    } else {
      LeadIsGot(pairs, k, Pair(MOUNT_FIELD, mount));
    }
    FieldsAreRead(handoff, expiry, mount, Collect(pairs));
  }

  lemma FieldsHold(handoff: Handoff, expiry: Text, mount: Text)
    ensures var values := Fields(handoff, expiry, mount);
      && Get(values, TOKEN_FIELD) == handoff.token && Get(values, EXPIRY_FIELD) == expiry
      && Get(values, MOUNT_FIELD) == (if mount == [] then "/app-handoff" else mount)
      && forall k :: k in values ==> values[k] != []
  {
    FieldsDiffer();
  }

  /** The values built for a handoff hold its fields, and come back whole. */
  lemma FieldsComeBack(handoff: Handoff, expiry: Text, mount: Text)
    ensures var values := Fields(handoff, expiry, mount);
      && Get(values, TOKEN_FIELD) == handoff.token && Get(values, EXPIRY_FIELD) == expiry
      && Get(values, MOUNT_FIELD) == (if mount == [] then "/app-handoff" else mount)
      && ParseValues(EncodeValues(values)) == Some(values)
  {
    FieldsHold(handoff, expiry, mount);
    WholeValuesRoundTrip(Fields(handoff, expiry, mount));
  }

  /** A referrer is built exactly for the expiries with a wire form, and reads back as the handoff
      it was built from, with the default mount for a blank one; only a blank token is lost, and
      then the token field is named. */
  lemma ReferrerRoundTrips(handoff: Handoff, mount: Text)
    ensures var built := AndroidReferrer(handoff, mount);
      && (built.Good? <==> Representable(handoff.expiresAt))
      && (built.Good? ==> ParseAndroidReferrer(built.value) == Carried(handoff, mount))
  {
    var expiry := FormatInstant(handoff.expiresAt);
    if expiry.Some? {
      FieldsComeBack(handoff, expiry.value, mount);
      FieldsAreRead(handoff, expiry.value, mount, Fields(handoff, expiry.value, mount));
    }
  }

  /** The clipboard carries the same, behind its marker. */
  lemma ClipboardRoundTrips(handoff: Handoff, mount: Text)
    ensures var built := ClipboardPayload(handoff, mount);
      && (built.Good? <==> Representable(handoff.expiresAt))
      && (built.Good? ==> ParseClipboardPayload(built.value) == Carried(handoff, mount))
  {
    ReferrerRoundTrips(handoff, mount);
    var encoded := AndroidReferrer(handoff, mount);
    if encoded.Good? {
      assert (CLIPBOARD_MARKER + encoded.value)[|CLIPBOARD_MARKER|..] == encoded.value;
    }
  }

  /** Two handoffs with one referrer are one handoff, with one mount, where a blank one stands for the
      documented one. */
  lemma ReferrersAreUnambiguous(a: Handoff, b: Handoff, mountA: Text, mountB: Text)
    requires a.token != [] && b.token != []
    requires AndroidReferrer(a, mountA).Good? && AndroidReferrer(a, mountA) == AndroidReferrer(b, mountB)
    ensures a == b
    ensures mountA == mountB || {mountA, mountB} == {[], "/app-handoff"}
  {
    ReferrerRoundTrips(a, mountA);
    ReferrerRoundTrips(b, mountB);
  }

  /** A given mount survives both carriers, and a blank one comes back as the documented one. */
  lemma MountsSurvive(handoff: Handoff, mount: Text)
    requires handoff.token != [] && Representable(handoff.expiresAt)
    ensures var referrer, payload := AndroidReferrer(handoff, mount), ClipboardPayload(handoff, mount);
      && referrer.Good? && payload.Good?
      && (mount != [] ==>
            && ParseAndroidReferrer(referrer.value) == Good(Redeemable(handoff, mount))
            && ParseClipboardPayload(payload.value) == Good(Redeemable(handoff, mount)))
      && (mount == [] ==>
            && ParseAndroidReferrer(referrer.value) == Good(Redeemable(handoff, "/app-handoff"))
            && ParseClipboardPayload(payload.value) == Good(Redeemable(handoff, "/app-handoff")))
  {
    ReferrerRoundTrips(handoff, mount);
    ClipboardRoundTrips(handoff, mount);
  }

  // ---------------------------------------------------------------- what the wire contract looks like

  lemma FieldNames()
    ensures TOKEN_FIELD == "atomi_handoff" && EXPIRY_FIELD == "atomi_handoff_expires" && MOUNT_FIELD == "atomi_handoff_mount"
    ensures CLIPBOARD_MARKER == "atomi-handoff:"
  {
  }

  lemma TokenBeforeExpiry()
    ensures Less(TOKEN_FIELD, EXPIRY_FIELD)
  {
    BeginsLess(TOKEN_FIELD, EXPIRY_FIELD);
  }

  lemma TokenBeforeMount()
    ensures Less(TOKEN_FIELD, MOUNT_FIELD)
  {
    BeginsLess(TOKEN_FIELD, MOUNT_FIELD);
  }

  lemma ExpiryBeforeMount()
    ensures Less(EXPIRY_FIELD, MOUNT_FIELD)
  {
    DiffersLess(EXPIRY_FIELD, MOUNT_FIELD, 14);
  }

  lemma TokenFieldPlain()
    ensures AllPlain(TOKEN_FIELD)
  {
  }

  lemma ExpiryFieldPlain()
    ensures AllPlain(EXPIRY_FIELD)
  {
  }

  lemma MountFieldPlain()
    ensures AllPlain(MOUNT_FIELD)
  {
  }

  /** The referrer itself: the token, the expiry and the mount under their names, in this order, each
      value escaped; and the clipboard payload is the same behind its marker. */
  lemma WireContract(handoff: Handoff, mount: Text, expiry: Text)
    requires FormatInstant(handoff.expiresAt) == Some(expiry)
    ensures var given := if mount == [] then "/app-handoff" else mount;
      var referrer := Wire(TOKEN_FIELD, handoff.token, EXPIRY_FIELD, expiry, MOUNT_FIELD, given);
      && AndroidReferrer(handoff, mount) == Good(referrer)
      && ClipboardPayload(handoff, mount) == Good(CLIPBOARD_MARKER + referrer)
  {
    TokenBeforeExpiry();
    TokenBeforeMount();
    ExpiryBeforeMount();
    TokenFieldPlain();
    ExpiryFieldPlain();
    MountFieldPlain();
    FieldsDiffer();
    EncodeThree(TOKEN_FIELD, handoff.token, EXPIRY_FIELD, expiry, MOUNT_FIELD, if mount == [] then "/app-handoff" else mount);
  }

  /** Three names with their escaped values, as a query string. */
  function Wire(x: Text, a: Text, y: Text, b: Text, z: Text, c: Text): Text {
    x + ['='] + Escape(a) + ['&'] + (y + ['='] + Escape(b) + ['&'] + (z + ['='] + Escape(c)))
  }

  lemma EncodeThree(x: Text, a: Text, y: Text, b: Text, z: Text, c: Text)
    requires Less(x, y) && Less(x, z) && Less(y, z) && AllPlain(x) && AllPlain(y) && AllPlain(z)
    ensures x != y && x != z && y != z
    ensures EncodeValues(map[x := [a], y := [b], z := [c]]) == Wire(x, a, y, b, z, c)
  {
    LessIsTotal(x, y);
    LessIsTotal(x, z);
    LessIsTotal(y, z);
    var values := map[x := [a], y := [b], z := [c]];
    SortedThree(x, y, z);
    assert values.Keys == {x, y, z};
    PairsOfThree(x, a, y, b, z, c, values);
    EscapePlain(x);
    EscapePlain(y);
    EscapePlain(z);
    EncodeThreePairs(Pair(x, a), Pair(y, b), Pair(z, c));
  }

  // ---------------------------------------------------------------- what is refused

  /** No referrer is built exactly for an expiry outside the four-digit years, from the first moment of
      year 0 to the last of year 9999. */
  lemma ReferrerUnbuilt(handoff: Handoff, mount: Text)
    ensures var within := -62_167_219_200_000 <= handoff.expiresAt < 253_402_300_800_000;
      && (!within ==> AndroidReferrer(handoff, mount) == Bad(UnrepresentableInstant))
      && (!within ==> ClipboardPayload(handoff, mount) == Bad(UnrepresentableInstant))
      && (within <==> AndroidReferrer(handoff, mount).Good?)
  {
  }

  /** A referrer is refused for a malformed query, then for a blank or missing token, naming that field,
      and then for an expiry that is not a wire form; the clipboard's is refused for its marker first. */
  lemma ReferrerRefused(referrer: Text)
    ensures var values, read := ParseValues(referrer), ParseAndroidReferrer(referrer);
      && (values.None? ==> read == Bad(MalformedQuery))
      && (values.Some? ==>
            var token, expiry := Get(values.value, "atomi_handoff"), Get(values.value, "atomi_handoff_expires");
            && (token == [] ==> read == Bad(MissingField("atomi_handoff")))
            && (token != [] && ParseInstant(expiry).None? ==> read == Bad(MalformedInstant))
            && (token != [] && ParseInstant(expiry).Some? ==>
                  read.Good? && read.value.handoff == Handoff(token, ParseInstant(expiry).value)))
  {
  }

  lemma PayloadRefused(payload: Text, referrer: Text)
    ensures !(CLIPBOARD_MARKER <= payload) ==> ParseClipboardPayload(payload) == Bad(MissingField("atomi-handoff:"))
    ensures ParseClipboardPayload(CLIPBOARD_MARKER + referrer) == ParseAndroidReferrer(referrer)
  {
    assert (CLIPBOARD_MARKER + referrer)[|CLIPBOARD_MARKER|..] == referrer;
  }

  // ---------------------------------------------------------------- whatever is accepted

  /** Whatever text the parser accepts, in whatever escaping, order and company, a carrier can be
      built again from what it read, and that reads the same. The parser here reads an instant in
      its canonical form only. */
  lemma AcceptedCarriersRebuild(referrer: Text)
    requires ParseAndroidReferrer(referrer).Good?
    ensures var read := ParseAndroidReferrer(referrer).value;
      var built := AndroidReferrer(read.handoff, read.mount);
      read.handoff.token != [] && read.mount != [] && built.Good? && ParseAndroidReferrer(built.value) == Good(read)
  {
    var read := ParseAndroidReferrer(referrer).value;
    WireFormRoundTrips(read.handoff.expiresAt, Get(ParseValues(referrer).value, EXPIRY_FIELD));
    ReferrerRoundTrips(read.handoff, read.mount);
  }

  /** Text without the marker is never taken for a login, and the marker is named. */
  lemma UnmarkedIsRejected(payload: Text)
    ensures ParseClipboardPayload(payload) == Bad(MissingField(CLIPBOARD_MARKER)) <==> !(CLIPBOARD_MARKER <= payload)
  {
    if CLIPBOARD_MARKER <= payload {
      MarkerIsNoField();
    }
  }

  lemma MarkerIsNoField()
    ensures CLIPBOARD_MARKER != TOKEN_FIELD
  {
    assert |CLIPBOARD_MARKER| == 14 && |TOKEN_FIELD| == 13;
  }
}
