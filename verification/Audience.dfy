/** Who of an audience gets the message: the per-contact decision, threaded through
    batches by the set of destinations already used, and the preview that sizes it. */
module Audience {
  import opened Options

  type ContactId = nat

  datatype SkipReason = NoDestination | InvalidDestination | OptedOut | ConsentWithdrawn | Bounced | Duplicate

  datatype RecipientDecision = RecipientDecision(
    contactId: ContactId, destination: Option<string>, skipReason: Option<SkipReason>)
  {
    /** A contact left to send to has an address to send to. */
    predicate Legal() {
      skipReason.None? ==> destination.Some? && destination.value != ""
    }
  }

  datatype Channel = Email | Sms | WhatsApp

  datatype OmniIdentity = OmniIdentity(channelType: string, senderId: string)

  /** The contact fields a send reads. An absent list is the empty one. */
  datatype Contact = Contact(
    id: ContactId,
    emails: seq<string>,
    phones: seq<string>,
    omniIdentities: seq<OmniIdentity>,
    doNotCall: bool,
    emailOptIn: Option<bool>,
    smsOptIn: Option<bool>,
    whatsappOptIn: Option<bool>)

  datatype IdentityKind = EmailIdentity | PhoneIdentity

  /** A row of `contact_identities`. */
  datatype IdentityRow = IdentityRow(
    kind: IdentityKind, normalisedValue: string, deleted: bool, bounced: bool, optIn: Option<bool>)

  /** Text services of the platform the model does not define. */
  datatype Platform = Platform(isSpace: char -> bool, lower: string -> string)

  /** Everything a decision reads besides the contact. */
  datatype Snapshot = Snapshot(channel: Channel, platform: Platform, identities: seq<IdentityRow>)

  // ---------------------------------------------------------------- text

  function TrimLeft(p: Platform, s: string): string {
    if s != "" && p.isSpace(s[0]) then TrimLeft(p, s[1..]) else s
  }

  function TrimRight(p: Platform, s: string): string {
    if s != "" && p.isSpace(s[|s| - 1]) then TrimRight(p, s[..|s| - 1]) else s
  }

  function Trim(p: Platform, s: string): string {
    TrimRight(p, TrimLeft(p, s))
  }

  predicate IsDigit(c: char) {
    '0' <= c <= '9'
  }

  function Digits(s: string): (d: string)
    ensures forall i :: 0 <= i < |d| ==> IsDigit(d[i])
  {
    if s == "" then "" else (if IsDigit(s[0]) then [s[0]] else "") + Digits(s[1..])
  }

  predicate StartsWith(s: string, prefix: string) {
    prefix <= s
  }

  function NormalizeEmail(p: Platform, value: string): string {
    p.lower(Trim(p, value))
  }

  /** Without a default country code, as both calls here make it. */
  function NormalizePhone(p: Platform, value: string): string {
    var trimmed := Trim(p, value);
    var digits := Digits(trimmed);
    if digits == "" then ""
    else if StartsWith(trimmed, "+") then "+" + digits
    else if StartsWith(digits, "00") && |digits| > 4 then "+" + digits[2..]
    else digits
  }

  function WithoutPlus(s: string): string {
    if StartsWith(s, "+") then s[1..] else s
  }

  /** `list.find(entry => entry?.trim())`. */
  function FirstFilled(p: Platform, list: seq<string>): (r: Option<string>)
    ensures r.Some? ==> r.value in list && Trim(p, r.value) != ""
  {
    if list == [] then None
    else if Trim(p, list[0]) != "" then Some(list[0])
    else FirstFilled(p, list[1..])
  }

  function FirstWhatsApp(list: seq<OmniIdentity>): (r: Option<OmniIdentity>)
    ensures r.Some? ==> r.value in list && r.value.channelType == "whatsapp"
  {
    if list == [] then None
    else if list[0].channelType == "whatsapp" then Some(list[0])
    else FirstWhatsApp(list[1..])
  }

  // ---------------------------------------------------------------- one contact

  function Consent(c: Contact, channel: Channel): Option<bool> {
    match channel
    case Email => c.emailOptIn
    case Sms => c.smsOptIn
    case WhatsApp => c.whatsappOptIn
  }

  /** `doNotCall` restricts every channel but email. */
  predicate Restricted(c: Contact, channel: Channel) {
    channel != Email && c.doNotCall
  }

  function RefusalOf(c: Contact, channel: Channel): Option<SkipReason> {
    if Restricted(c, channel) then Some(OptedOut)
    else if Consent(c, channel) == Some(false) then Some(ConsentWithdrawn)
    else None
  }

  function SendTo(c: Contact, destination: string): RecipientDecision {
    RecipientDecision(c.id, Some(destination), None)
  }

  function SkipFor(c: Contact, reason: SkipReason): RecipientDecision {
    RecipientDecision(c.id, None, Some(reason))
  }

  function EmailDestination(s: Snapshot, c: Contact): RecipientDecision {
    match FirstFilled(s.platform, c.emails)
    case None => SkipFor(c, NoDestination)
    case Some(raw) =>
      var normalised := NormalizeEmail(s.platform, raw);
      if '@' in normalised then SendTo(c, normalised) else SkipFor(c, InvalidDestination)
  }

  function TypedDestination(s: Snapshot, c: Contact): RecipientDecision {
    match FirstFilled(s.platform, c.phones)
    case None => SkipFor(c, NoDestination)
    case Some(typed) =>
      var normalised := NormalizePhone(s.platform, typed);
      if StartsWith(normalised, "+") then SendTo(c, normalised) else SkipFor(c, InvalidDestination)
  }

  function ProviderDestination(s: Snapshot, c: Contact, senderId: string): RecipientDecision {
    var digits := WithoutPlus(NormalizePhone(s.platform, senderId));
    if digits != "" then SendTo(c, "+" + digits) else SkipFor(c, InvalidDestination)
  }

  function ResolveDestination(s: Snapshot, c: Contact): RecipientDecision {
    if s.channel == Email then EmailDestination(s, c)
    else
      var provider := if s.channel == WhatsApp then FirstWhatsApp(c.omniIdentities) else None;
      if provider.Some? && Trim(s.platform, provider.value.senderId) != ""
      then ProviderDestination(s, c, provider.value.senderId)
      else TypedDestination(s, c)
  }

  function Resolve(s: Snapshot, c: Contact): RecipientDecision {
    match RefusalOf(c, s.channel)
    case Some(reason) => SkipFor(c, reason)
    case None => ResolveDestination(s, c)
  }

  /** A deliverable address on this channel: an email with an `@`, or E.164. */
  predicate Addressable(channel: Channel, d: string) {
    if channel == Email then '@' in d
    else |d| > 1 && d[0] == '+' && forall i :: 1 <= i < |d| ==> IsDigit(d[i])
  }

  lemma ResolvedIsAddressable(s: Snapshot, c: Contact)
    ensures var r := Resolve(s, c);
            && r.contactId == c.id
            && (r.skipReason.None? <==> r.destination.Some?)
            && (r.destination.Some? ==> Addressable(s.channel, r.destination.value))
            && r.skipReason != Some(Duplicate)
  {
  }

  // ---------------------------------------------------------------- blocked destinations

  predicate Blocks(row: IdentityRow, channel: Channel) {
    && row.kind == (if channel == Email then EmailIdentity else PhoneIdentity)
    && !row.deleted
    && (row.bounced || row.optIn == Some(false))
  }

  function BlockReason(row: IdentityRow): SkipReason {
    if row.optIn == Some(false) then ConsentWithdrawn else Bounced
  }

  /** The last matching row decides, as in a `Map` built from the query's rows. */
  function BlockOf(rows: seq<IdentityRow>, channel: Channel, d: string): (r: Option<SkipReason>)
    ensures r in {None, Some(ConsentWithdrawn), Some(Bounced)}
  {
    if rows == [] then None
    else
      var row := rows[|rows| - 1];
      if Blocks(row, channel) && row.normalisedValue == d then Some(BlockReason(row))
      else BlockOf(rows[..|rows| - 1], channel, d)
  }

  /** The row forbids address `d`: it is not deleted, of the channel's kind, and bounced or refused. */
  predicate Forbids(row: IdentityRow, channel: Channel, d: string) {
    && row.normalisedValue == d && !row.deleted
    && (row.kind == EmailIdentity <==> channel == Email)
    && (row.bounced || row.optIn == Some(false))
  }

  /** An address is blocked if and only if some row forbids it. */
  lemma {:induction false} BlockedExactly(rows: seq<IdentityRow>, channel: Channel, d: string)
    ensures BlockOf(rows, channel, d).Some? <==> exists row :: row in rows && Forbids(row, channel, d)
  {
    if rows != [] {
      var n := |rows| - 1;
      BlockedExactly(rows[..n], channel, d);
      assert rows == rows[..n] + [rows[n]];
      assert rows[n] in rows;
    }
  }

  /** The last row that forbids an address gives the reason: a refusal before a bounce. */
  lemma {:induction false} BlockReasonExactly(rows: seq<IdentityRow>, channel: Channel, d: string, i: nat)
    requires i < |rows| && Forbids(rows[i], channel, d)
    requires forall j :: i < j < |rows| ==> !Forbids(rows[j], channel, d)
    ensures BlockOf(rows, channel, d) == Some(if rows[i].optIn == Some(false) then ConsentWithdrawn else Bounced)
  {
    var n := |rows| - 1;
    if i < n {
      assert !Forbids(rows[n], channel, d);
      assert forall j :: 0 <= j < n ==> rows[..n][j] == rows[j];
      BlockReasonExactly(rows[..n], channel, d, i);
    }
  }

  method FindBlockedDestinations(s: Snapshot, destinations: seq<string>) returns (blocked: map<string, SkipReason>)
    ensures forall d :: d in destinations ==>
              (d in blocked <==> BlockOf(s.identities, s.channel, d).Some?)
              && (d in blocked ==> BlockOf(s.identities, s.channel, d) == Some(blocked[d]))
    ensures forall d :: d in destinations ==>
              (d in blocked <==> exists row :: row in s.identities && Forbids(row, s.channel, d))
  {
    blocked := map[];
    if destinations == [] {
      return;
    }
    for i := 0 to |s.identities|
      invariant forall d :: d in destinations ==>
                  (d in blocked <==> BlockOf(s.identities[..i], s.channel, d).Some?)
                  && (d in blocked ==> BlockOf(s.identities[..i], s.channel, d) == Some(blocked[d]))
    {
      var row := s.identities[i];
      assert s.identities[..i + 1][..i] == s.identities[..i];
      if Blocks(row, s.channel) && row.normalisedValue in destinations {
        blocked := blocked[row.normalisedValue := BlockReason(row)];
      }
    }
    assert s.identities[..|s.identities|] == s.identities;
    forall d | d in destinations
      ensures d in blocked <==> exists row :: row in s.identities && Forbids(row, s.channel, d)
    {
      BlockedExactly(s.identities, s.channel, d);
    }
  }

  // ---------------------------------------------------------------- a batch

  /** The address a contact would be sent to if nobody had used it before. */
  function Sendable(s: Snapshot, c: Contact): Option<string> {
    var r := Resolve(s, c);
    if r.destination.Some? && BlockOf(s.identities, s.channel, r.destination.value).None?
    then r.destination else None
  }

  function DecideOne(s: Snapshot, c: Contact, seen: set<string>): RecipientDecision {
    var entry := Resolve(s, c);
    if entry.skipReason.Some? || entry.destination.None? then entry
    else
      match BlockOf(s.identities, s.channel, entry.destination.value)
      case Some(block) => entry.(skipReason := Some(block))
      case None =>
        if entry.destination.value in seen then entry.(skipReason := Some(Duplicate)) else entry
  }

  datatype Outcome = Outcome(decisions: seq<RecipientDecision>, seen: set<string>)

  /** One pass over `cs`, starting from the destinations already used. */
  function Decide(s: Snapshot, cs: seq<Contact>, seen: set<string>): (r: Outcome)
    ensures |r.decisions| == |cs| && seen <= r.seen
  {
    if cs == [] then Outcome([], seen)
    else
      var before := Decide(s, cs[..|cs| - 1], seen);
      var c := cs[|cs| - 1];
      var d := Sendable(s, c);
      Outcome(before.decisions + [DecideOne(s, c, before.seen)],
              if d.Some? then before.seen + {d.value} else before.seen)
  }

  /** The `Set` the materialisation threads through its batches. */
  class SeenDestinations {
    var members: set<string>

    constructor ()
      ensures members == {}
    {
      members := {};
    }
  }

  method ResolveAll(s: Snapshot, batch: seq<Contact>)
    returns (resolved: seq<RecipientDecision>, destinations: seq<string>)
    ensures |resolved| == |batch|
    ensures forall j :: 0 <= j < |batch| ==>
              resolved[j] == Resolve(s, batch[j])
              && (resolved[j].destination.Some? ==> resolved[j].destination.value in destinations)
  {
    resolved := [];
    destinations := [];
    for i := 0 to |batch|
      invariant |resolved| == i
      invariant forall j :: 0 <= j < i ==>
                  resolved[j] == Resolve(s, batch[j])
                  && (resolved[j].destination.Some? ==> resolved[j].destination.value in destinations)
    {
      var entry := Resolve(s, batch[i]);
      resolved := resolved + [entry];
      if entry.destination.Some? {
        destinations := destinations + [entry.destination.value];
      }
    }
  }

  method DecideBatch(s: Snapshot, batch: seq<Contact>, seen: SeenDestinations)
    returns (decisions: seq<RecipientDecision>)
    modifies seen
    ensures decisions == Decide(s, batch, old(seen.members)).decisions
    ensures seen.members == Decide(s, batch, old(seen.members)).seen
  {
    var resolved, destinations := ResolveAll(s, batch);
    var blocked := FindBlockedDestinations(s, destinations);
    decisions := [];
    for i := 0 to |batch|
      invariant Outcome(decisions, seen.members) == Decide(s, batch[..i], old(seen.members))
    {
      DecideNext(s, batch, i, old(seen.members));
      ResolvedIsAddressable(s, batch[i]);
      var entry := resolved[i];
      if entry.skipReason.None? && entry.destination.Some? {
        var d := entry.destination.value;
        if d in blocked {
          entry := entry.(skipReason := Some(blocked[d]));
        } else if d in seen.members {
          entry := entry.(skipReason := Some(Duplicate));
        } else {
          seen.members := seen.members + {d};
        }
      }
      decisions := decisions + [entry];
    }
    assert batch[..|batch|] == batch;
  }

  lemma DecideNext(s: Snapshot, cs: seq<Contact>, i: nat, seen: set<string>)
    requires i < |cs|
    ensures var before := Decide(s, cs[..i], seen);
            Decide(s, cs[..i + 1], seen)
            == Outcome(before.decisions + [DecideOne(s, cs[i], before.seen)],
                       before.seen + if Sendable(s, cs[i]).Some? then {Sendable(s, cs[i]).value} else {})
  {
    assert cs[..i + 1][..i] == cs[..i];
  }

  // ---------------------------------------------------------------- what a pass decides

  /** Where the batch boundaries fall changes nothing. */
  lemma {:induction false} BatchesCompose(s: Snapshot, a: seq<Contact>, b: seq<Contact>, seen: set<string>)
    ensures var first := Decide(s, a, seen);
            var second := Decide(s, b, first.seen);
            Decide(s, a + b, seen) == Outcome(first.decisions + second.decisions, second.seen)
  {
    if b == [] {
      assert a + b == a;
    } else {
      var n := |b| - 1;
      BatchesCompose(s, a, b[..n], seen);
      assert (a + b)[..|a + b| - 1] == a + b[..n];
      assert (a + b)[|a + b| - 1] == b[n];
    }
  }

  function Concat(batches: seq<seq<Contact>>): seq<Contact> {
    if batches == [] then [] else Concat(batches[..|batches| - 1]) + batches[|batches| - 1]
  }

  /** The decisions of a run that decides batch by batch, threading one set. */
  function DecideBatches(s: Snapshot, batches: seq<seq<Contact>>, seen: set<string>): Outcome {
    if batches == [] then Outcome([], seen)
    else
      var before := DecideBatches(s, batches[..|batches| - 1], seen);
      var last := Decide(s, batches[|batches| - 1], before.seen);
      Outcome(before.decisions + last.decisions, last.seen)
  }

  /** Any split into batches decides as one pass over the whole audience does. */
  lemma {:induction false} BatchingIsIrrelevant(s: Snapshot, batches: seq<seq<Contact>>, seen: set<string>)
    ensures DecideBatches(s, batches, seen) == Decide(s, Concat(batches), seen)
  {
    if batches != [] {
      var n := |batches| - 1;
      BatchingIsIrrelevant(s, batches[..n], seen);
      BatchesCompose(s, Concat(batches[..n]), batches[n], seen);
    }
  }

  /** The decision for the contact at `i`, said without any threading: the first
      sendable contact with an address gets the message, later ones are duplicates. */
  ghost function Verdict(s: Snapshot, cs: seq<Contact>, i: nat): RecipientDecision
    requires i < |cs|
  {
    var entry := Resolve(s, cs[i]);
    if entry.skipReason.Some? then entry
    else if Sendable(s, cs[i]).None? then
      entry.(skipReason := BlockOf(s.identities, s.channel, entry.destination.GetOr("")))
    else if exists j :: 0 <= j < i && Sendable(s, cs[j]) == Sendable(s, cs[i]) then
      entry.(skipReason := Some(Duplicate))
    else entry
  }

  ghost predicate SomeSendable(s: Snapshot, cs: seq<Contact>, d: string) {
    exists j :: 0 <= j < |cs| && Sendable(s, cs[j]) == Some(d)
  }

  lemma SomeSendableSnoc(s: Snapshot, cs: seq<Contact>, c: Contact, d: string)
    ensures SomeSendable(s, cs + [c], d) <==> SomeSendable(s, cs, d) || Sendable(s, c) == Some(d)
  {
    var all := cs + [c];
    if SomeSendable(s, cs, d) {
      var j :| 0 <= j < |cs| && Sendable(s, cs[j]) == Some(d);
      assert all[j] == cs[j];
    }
    assert all[|cs|] == c;
  }

  lemma {:induction false} SeenAreSendable(s: Snapshot, cs: seq<Contact>, d: string)
    ensures d in Decide(s, cs, {}).seen <==> SomeSendable(s, cs, d)
  {
    if cs != [] {
      var n := |cs| - 1;
      SeenAreSendable(s, cs[..n], d);
      SomeSendableSnoc(s, cs[..n], cs[n], d);
      assert cs == cs[..n] + [cs[n]];
    }
  }

  lemma {:induction false} PassPrefix(s: Snapshot, cs: seq<Contact>, i: nat)
    requires i < |cs|
    ensures Decide(s, cs, {}).decisions[i] == DecideOne(s, cs[i], Decide(s, cs[..i], {}).seen)
  {
    var n := |cs| - 1;
    DecideNext(s, cs, n, {});
    assert cs[..n + 1] == cs;
    if i < n {
      PassPrefix(s, cs[..n], i);
      assert cs[..n][..i] == cs[..i] && cs[..n][i] == cs[i];
    }
  }

  /** The threaded pass computes exactly the verdicts. */
  lemma PassIsVerdict(s: Snapshot, cs: seq<Contact>, i: nat)
    requires i < |cs|
    ensures Decide(s, cs, {}).decisions[i] == Verdict(s, cs, i)
  {
    PassPrefix(s, cs, i);
    ResolvedIsAddressable(s, cs[i]);
    var d := Resolve(s, cs[i]).destination.GetOr("");
    SeenAreSendable(s, cs[..i], d);
    if j :| 0 <= j < i && Sendable(s, cs[j]) == Sendable(s, cs[i]) {
      assert Sendable(s, cs[..i][j]) == Sendable(s, cs[i]);
    }
  }

  /** Two contacts left to send to never share an address. */
  lemma PendingDestinationsDistinct(s: Snapshot, cs: seq<Contact>, i: nat, j: nat)
    requires i < j < |cs|
    requires Decide(s, cs, {}).decisions[i].skipReason.None? && Decide(s, cs, {}).decisions[j].skipReason.None?
    ensures Decide(s, cs, {}).decisions[i].destination != Decide(s, cs, {}).decisions[j].destination
  {
    PassIsVerdict(s, cs, i);
    PassIsVerdict(s, cs, j);
    ResolvedIsAddressable(s, cs[i]);
    ResolvedIsAddressable(s, cs[j]);
  }

  lemma {:induction false} FirstWithDestination(s: Snapshot, cs: seq<Contact>, d: string, j: nat) returns (f: nat)
    requires j < |cs| && Sendable(s, cs[j]) == Some(d)
    ensures f <= j && Sendable(s, cs[f]) == Some(d)
    ensures Verdict(s, cs, f) == SendTo(cs[f], d)
  {
    ResolvedIsAddressable(s, cs[j]);
    if k :| 0 <= k < j && Sendable(s, cs[k]) == Some(d) {
      f := FirstWithDestination(s, cs, d, k);
    } else {
      f := j;
    }
  }

  /** `duplicate` means exactly this: the contact could have been sent to, and an
      earlier contact with the same address is. */
  lemma DuplicateExactly(s: Snapshot, cs: seq<Contact>, i: nat)
    requires i < |cs|
    ensures Decide(s, cs, {}).decisions[i].skipReason == Some(Duplicate)
            <==> Sendable(s, cs[i]).Some?
                 && exists j :: 0 <= j < i && Decide(s, cs, {}).decisions[j].skipReason.None?
                               && Decide(s, cs, {}).decisions[j].destination == Sendable(s, cs[i])
  {
    var all := Decide(s, cs, {}).decisions;
    PassIsVerdict(s, cs, i);
    ResolvedIsAddressable(s, cs[i]);
    if all[i].skipReason == Some(Duplicate) {
      var j :| 0 <= j < i && Sendable(s, cs[j]) == Sendable(s, cs[i]);
      var f := FirstWithDestination(s, cs, Sendable(s, cs[i]).value, j);
      PassIsVerdict(s, cs, f);
    } else if j :| 0 <= j < i && all[j].skipReason.None? && all[j].destination == Sendable(s, cs[i]) {
      PassIsVerdict(s, cs, j);
      ResolvedIsAddressable(s, cs[j]);
    }
  }

  /** Every decision names its contact, and one left to send to has a deliverable address. */
  lemma {:induction false} DecisionsAreLegal(s: Snapshot, cs: seq<Contact>, seen: set<string>, i: nat)
    requires i < |cs|
    ensures var d := Decide(s, cs, seen).decisions[i];
            && d.contactId == cs[i].id && d.Legal()
            && (d.skipReason.None? ==> Addressable(s.channel, d.destination.value))
  {
    ResolvedIsAddressable(s, cs[i]);
    if i < |cs| - 1 {
      DecisionsAreLegal(s, cs[..|cs| - 1], seen, i);
    }
  }

  // ---------------------------------------------------------------- preview

  datatype Bucket = Refused | Nowhere | Reachable

  predicate HasDestinationExpression(c: Contact, channel: Channel) {
    match channel
    case Email => |c.emails| > 0
    case Sms => |c.phones| > 0
    case WhatsApp =>
      |c.phones| > 0
      || exists i :: 0 <= i < |c.omniIdentities| && c.omniIdentities[i].channelType == "whatsapp"
  }

  function BucketOf(c: Contact, channel: Channel): Bucket {
    if Consent(c, channel) == Some(false) || Restricted(c, channel) then Refused
    else if !HasDestinationExpression(c, channel) then Nowhere
    else Reachable
  }

  datatype AudiencePreview = AudiencePreview(
    total: nat, reachable: nat, noDestination: nat, refused: nat, consentUnknown: nat, exact: bool)

  /** One document through the aggregation's single `$group`. */
  function Counted(p: AudiencePreview, c: Contact, channel: Channel): AudiencePreview {
    var counted := p.(total := p.total + 1);
    match BucketOf(c, channel)
    case Refused => counted.(refused := p.refused + 1)
    case Nowhere => counted.(noDestination := p.noDestination + 1)
    case Reachable =>
      counted.(reachable := p.reachable + 1,
               consentUnknown := p.consentUnknown + if Consent(c, channel).None? then 1 else 0)
  }

  function Group(cs: seq<Contact>, channel: Channel): AudiencePreview {
    if cs == [] then AudiencePreview(0, 0, 0, 0, 0, true)
    else Counted(Group(cs[..|cs| - 1], channel), cs[|cs| - 1], channel)
  }

  /** A timeout reports zeroes marked inexact. */
  function Preview(cs: seq<Contact>, channel: Channel, timedOut: bool): AudiencePreview {
    if timedOut then AudiencePreview(0, 0, 0, 0, 0, false) else Group(cs, channel)
  }

  predicate IsRefusal(d: RecipientDecision) {
    d.destination.None? && d.skipReason in {Some(OptedOut), Some(ConsentWithdrawn)}
  }

  function CountRefusals(ds: seq<RecipientDecision>): nat {
    if ds == [] then 0 else CountRefusals(ds[..|ds| - 1]) + if IsRefusal(ds[|ds| - 1]) then 1 else 0
  }

  function CountPending(ds: seq<RecipientDecision>): nat {
    if ds == [] then 0 else CountPending(ds[..|ds| - 1]) + if ds[|ds| - 1].skipReason.None? then 1 else 0
  }

  lemma BucketAgrees(s: Snapshot, c: Contact, seen: set<string>)
    ensures IsRefusal(DecideOne(s, c, seen)) <==> BucketOf(c, s.channel) == Refused
    ensures DecideOne(s, c, seen).skipReason.None? ==> BucketOf(c, s.channel) == Reachable
  {
    ResolvedIsAddressable(s, c);
    if s.channel == WhatsApp && FirstWhatsApp(c.omniIdentities).Some? {
      var found := FirstWhatsApp(c.omniIdentities).value;
      var i :| 0 <= i < |c.omniIdentities| && c.omniIdentities[i] == found;
      assert c.omniIdentities[i].channelType == "whatsapp";
    }
  }

  lemma CountsGrow(ds: seq<RecipientDecision>, d: RecipientDecision)
    ensures CountRefusals(ds + [d]) == CountRefusals(ds) + if IsRefusal(d) then 1 else 0
    ensures CountPending(ds + [d]) == CountPending(ds) + if d.skipReason.None? then 1 else 0
  {
    assert (ds + [d])[..|ds|] == ds;
  }

  /** The preview `p` of an audience and the decisions `run` on it agree. */
  ghost predicate Bounds(p: AudiencePreview, run: seq<RecipientDecision>) {
    && p.exact && p.total == |run| == p.reachable + p.refused + p.noDestination
    && p.consentUnknown <= p.reachable
    && p.refused == CountRefusals(run)
    && CountPending(run) <= p.reachable
  }

  lemma BoundsGrow(s: Snapshot, p: AudiencePreview, run: seq<RecipientDecision>, c: Contact, seen: set<string>)
    requires Bounds(p, run)
    ensures Bounds(Counted(p, c, s.channel), run + [DecideOne(s, c, seen)])
  {
    BucketAgrees(s, c, seen);
    CountsGrow(run, DecideOne(s, c, seen));
  }

  /** The preview's figures partition the audience, and on the same snapshot its refusals
      are the run's own and its reachable figure bounds what the run will send. */
  lemma {:induction false} PreviewBoundsTheRun(s: Snapshot, cs: seq<Contact>, seen: set<string>)
    ensures Bounds(Preview(cs, s.channel, false), Decide(s, cs, seen).decisions)
  {
    if cs != [] {
      var n := |cs| - 1;
      PreviewBoundsTheRun(s, cs[..n], seen);
      var before := Decide(s, cs[..n], seen);
      BoundsGrow(s, Group(cs[..n], s.channel), before.decisions, cs[n], before.seen);
    }
  }
}
