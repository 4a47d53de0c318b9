/** The audience decision spelled out in the fields of contacts and identity rows: who is
    refused, which address is chosen, what blocks it, and what the preview's figures count. */
module AudienceRules {
  import opened Options
  import opened Audience

  // ---------------------------------------------------------------- refusals

  /** The contact asked not to be called, or said no to this very channel. */
  predicate Refuses(c: Contact, channel: Channel) {
    || (channel != Email && c.doNotCall)
    || (channel == Email && c.emailOptIn == Some(false))
    || (channel == Sms && c.smsOptIn == Some(false))
    || (channel == WhatsApp && c.whatsappOptIn == Some(false))
  }

  /** A refusal outranks every fault of the data, and never having been asked is no refusal. */
  lemma RefusedExactly(s: Snapshot, c: Contact, seen: set<string>)
    ensures var d := DecideOne(s, c, seen);
            && (Refuses(c, s.channel) <==>
                  d.destination.None? && d.skipReason in {Some(OptedOut), Some(ConsentWithdrawn)})
            && (d.skipReason == Some(OptedOut) <==> s.channel != Email && c.doNotCall)
            && (d.skipReason == Some(ConsentWithdrawn) && d.destination.None? <==>
                  Refuses(c, s.channel) && !(s.channel != Email && c.doNotCall))
  {
  }

  // ---------------------------------------------------------------- normal forms

  ghost predicate Blank(p: Platform, s: string) {
    forall i :: 0 <= i < |s| ==> p.isSpace(s[i])
  }

  ghost predicate Tight(p: Platform, s: string) {
    s == "" || (!p.isSpace(s[0]) && !p.isSpace(s[|s| - 1]))
  }

  lemma {:induction false} TrimmedLeft(p: Platform, before: string, core: string)
    requires Blank(p, before) && (core == "" || !p.isSpace(core[0]))
    ensures TrimLeft(p, before + core) == core
  {
    if before == "" {
      assert before + core == core;
    } else {
      assert (before + core)[1..] == before[1..] + core;
      TrimmedLeft(p, before[1..], core);
    }
  }

  lemma {:induction false} TrimmedRight(p: Platform, core: string, after: string)
    requires Blank(p, after) && (core == "" || !p.isSpace(core[|core| - 1]))
    ensures TrimRight(p, core + after) == core
  {
    if after == "" {
      assert core + after == core;
    } else {
      var n := |after| - 1;
      assert (core + after)[..|core + after| - 1] == core + after[..n];
      assert (core + after)[|core + after| - 1] == after[n];
      TrimmedRight(p, core, after[..n]);
    }
  }

  /** Trimming takes the white space off both ends and nothing else. */
  lemma TrimExactly(p: Platform, before: string, core: string, after: string)
    requires Blank(p, before) && Tight(p, core) && Blank(p, after)
    ensures Trim(p, before + core + after) == core
  {
    if core == "" {
      assert before + core + after == (before + after) + "";
      TrimmedLeft(p, before + after, "");
    } else {
      assert before + core + after == before + (core + after);
      TrimmedLeft(p, before, core + after);
      TrimmedRight(p, core, after);
    }
  }

  ghost predicate Numeric(s: string) {
    forall i :: 0 <= i < |s| ==> '0' <= s[i] <= '9'
  }

  lemma {:induction false} DigitsOfNumber(s: string)
    requires Numeric(s)
    ensures Digits(s) == s
  {
    if s != "" {
      DigitsOfNumber(s[1..]);
    }
  }

  /** White space is none of the characters a number is written with. */
  ghost predicate PlainDigits(p: Platform) {
    !p.isSpace('+') && forall c :: '0' <= c <= '9' ==> !p.isSpace(c)
  }

  lemma TightIsTrimmed(p: Platform, s: string)
    requires Tight(p, s)
    ensures Trim(p, s) == s
  {
    assert "" + s + "" == s;
    TrimExactly(p, "", s, "");
  }

  /** A number written with `+` keeps it. */
  lemma PlusIsKept(p: Platform, number: string)
    requires PlainDigits(p) && Numeric(number) && number != ""
    ensures NormalizePhone(p, "+" + number) == "+" + number
  {
    var plus := "+" + number;
    TightIsTrimmed(p, plus);
    DigitsOfNumber(number);
    assert plus[1..] == number;
    assert Digits(plus) == number;
  }

  /** One written with `00` is that same number. */
  lemma ZeroZeroIsPlus(p: Platform, number: string)
    requires PlainDigits(p) && Numeric(number) && |number| > 2
    ensures NormalizePhone(p, "00" + number) == "+" + number
  {
    var zeros := "00" + number;
    TightIsTrimmed(p, zeros);
    DigitsOfNumber(zeros);
    assert zeros[2..] == number;
  }

  /** Any other stays a bare number, which no gateway takes. */
  lemma BareNumberStays(p: Platform, number: string)
    requires PlainDigits(p) && Numeric(number) && !("00" <= number)
    ensures NormalizePhone(p, number) == number
  {
    TightIsTrimmed(p, number);
    DigitsOfNumber(number);
  }

  // ---------------------------------------------------------------- the address chosen

  /** Entry `i` is the first that is more than white space. */
  ghost predicate FirstFilledAt(p: Platform, list: seq<string>, i: nat) {
    i < |list| && Trim(p, list[i]) != "" && forall j :: 0 <= j < i ==> Trim(p, list[j]) == ""
  }

  lemma {:induction false} FirstFilledExactly(p: Platform, list: seq<string>, i: nat)
    requires FirstFilledAt(p, list, i)
    ensures FirstFilled(p, list) == Some(list[i])
  {
    if i > 0 {
      assert Trim(p, list[0]) == "";
      assert forall j :: 0 <= j < |list| - 1 ==> list[1..][j] == list[j + 1];
      FirstFilledExactly(p, list[1..], i - 1);
    }
  }

  lemma {:induction false} NoneFilled(p: Platform, list: seq<string>)
    requires forall j :: 0 <= j < |list| ==> Trim(p, list[j]) == ""
    ensures FirstFilled(p, list) == None
  {
    if list != [] {
      NoneFilled(p, list[1..]);
    }
  }

  lemma {:induction false} FirstWhatsAppExactly(list: seq<OmniIdentity>, i: nat)
    requires FirstWhatsAppAt(list, i)
    ensures FirstWhatsApp(list) == Some(list[i])
  {
    if i > 0 {
      assert list[0].channelType != "whatsapp";
      assert forall j :: 0 <= j < |list| - 1 ==> list[1..][j] == list[j + 1];
      FirstWhatsAppExactly(list[1..], i - 1);
    }
  }

  ghost predicate FirstWhatsAppAt(list: seq<OmniIdentity>, i: nat) {
    && i < |list| && list[i].channelType == "whatsapp"
    && forall j :: 0 <= j < i ==> list[j].channelType != "whatsapp"
  }

  /** An email goes to the first entry that is filled, lower-cased and without its white space,
      if that has an `@`. */
  lemma EmailGoesToTheFirst(s: Snapshot, c: Contact, i: nat)
    requires s.channel == Email && c.emailOptIn != Some(false) && FirstFilledAt(s.platform, c.emails, i)
    ensures var d := s.platform.lower(Trim(s.platform, c.emails[i]));
            Resolve(s, c) == if '@' in d then RecipientDecision(c.id, Some(d), None)
                             else RecipientDecision(c.id, None, Some(InvalidDestination))
  {
    FirstFilledExactly(s.platform, c.emails, i);
  }

  /** On WhatsApp the number the provider gave goes before any number typed in, plus sign or not. */
  lemma ProviderNumberGoesFirst(s: Snapshot, c: Contact, i: nat)
    requires s.channel == WhatsApp && !c.doNotCall && c.whatsappOptIn != Some(false)
    requires FirstWhatsAppAt(c.omniIdentities, i) && Trim(s.platform, c.omniIdentities[i].senderId) != ""
    ensures var n := NormalizePhone(s.platform, c.omniIdentities[i].senderId);
            Resolve(s, c) == if n == "" || n == "+" then RecipientDecision(c.id, None, Some(InvalidDestination))
                             else RecipientDecision(c.id, Some(if n[0] == '+' then n else "+" + n), None)
  {
    FirstWhatsAppExactly(c.omniIdentities, i);
    var n := NormalizePhone(s.platform, c.omniIdentities[i].senderId);
    if n != "" && n[0] == '+' {
      assert n == "+" + n[1..];
    }
  }

  /** The channel has no number of the provider's to use. */
  ghost predicate OnlyTypedNumbers(s: Snapshot, c: Contact) {
    || s.channel == Sms
    || (s.channel == WhatsApp
        && forall i: nat :: FirstWhatsAppAt(c.omniIdentities, i) ==>
                              Trim(s.platform, c.omniIdentities[i].senderId) == "")
  }

  lemma {:induction false} SomeWhatsAppIsFirst(list: seq<OmniIdentity>) returns (i: nat)
    requires FirstWhatsApp(list).Some?
    ensures FirstWhatsAppAt(list, i) && list[i] == FirstWhatsApp(list).value
  {
    if list[0].channelType == "whatsapp" {
      i := 0;
    } else {
      i := SomeWhatsAppIsFirst(list[1..]);
      i := i + 1;
      assert forall j :: 1 <= j < |list| ==> list[1..][j - 1] == list[j];
    }
  }

  lemma NoProviderNumber(s: Snapshot, c: Contact)
    requires OnlyTypedNumbers(s, c) && !Refuses(c, s.channel)
    ensures Resolve(s, c) == TypedDestination(s, c)
  {
    if s.channel == WhatsApp && FirstWhatsApp(c.omniIdentities).Some? {
      var i := SomeWhatsAppIsFirst(c.omniIdentities);
    }
  }

  /** Otherwise the first number typed in is used, if it is an international one. */
  lemma TypedNumberOtherwise(s: Snapshot, c: Contact, i: nat)
    requires OnlyTypedNumbers(s, c) && !Refuses(c, s.channel) && FirstFilledAt(s.platform, c.phones, i)
    ensures var n := NormalizePhone(s.platform, c.phones[i]);
            Resolve(s, c) == if n != "" && n[0] == '+' then RecipientDecision(c.id, Some(n), None)
                             else RecipientDecision(c.id, None, Some(InvalidDestination))
  {
    NoProviderNumber(s, c);
    FirstFilledExactly(s.platform, c.phones, i);
  }

  /** Nothing filled in, nowhere to send. */
  lemma NowhereToSend(s: Snapshot, c: Contact)
    requires !Refuses(c, s.channel)
    requires s.channel == Email || OnlyTypedNumbers(s, c)
    requires var list := if s.channel == Email then c.emails else c.phones;
             forall j :: 0 <= j < |list| ==> Trim(s.platform, list[j]) == ""
    ensures Resolve(s, c) == RecipientDecision(c.id, None, Some(NoDestination))
  {
    if s.channel == Email {
      NoneFilled(s.platform, c.emails);
    } else {
      NoProviderNumber(s, c);
      NoneFilled(s.platform, c.phones);
    }
  }

  // ---------------------------------------------------------------- blocked addresses

  /** No contact is left to send to at an address some row forbids. */
  lemma {:induction false} ForbiddenIsNeverPending(s: Snapshot, cs: seq<Contact>, i: nat, row: IdentityRow)
    requires i < |cs| && row in s.identities
    requires Decide(s, cs, {}).decisions[i].skipReason.None?
    ensures !Forbids(row, s.channel, Decide(s, cs, {}).decisions[i].destination.GetOr(""))
  {
    PassIsVerdict(s, cs, i);
    ResolvedIsAddressable(s, cs[i]);
    BlockedExactly(s.identities, s.channel, Decide(s, cs, {}).decisions[i].destination.GetOr(""));
  }

  /** And a contact whose address a row forbids is skipped for that row's reason, its address kept. */
  lemma ForbiddenIsSkipped(s: Snapshot, c: Contact, seen: set<string>, i: nat)
    requires Resolve(s, c).destination.Some? && i < |s.identities|
    requires Forbids(s.identities[i], s.channel, Resolve(s, c).destination.value)
    requires forall j :: i < j < |s.identities| ==>
               !Forbids(s.identities[j], s.channel, Resolve(s, c).destination.value)
    ensures DecideOne(s, c, seen)
            == RecipientDecision(c.id, Resolve(s, c).destination,
                                 Some(if s.identities[i].optIn == Some(false) then ConsentWithdrawn else Bounced))
  {
    ResolvedIsAddressable(s, c);
    BlockReasonExactly(s.identities, s.channel, Resolve(s, c).destination.value, i);
  }

  // ---------------------------------------------------------------- the preview

  predicate HasAnEntry(c: Contact, channel: Channel) {
    match channel
    case Email => c.emails != []
    case Sms => c.phones != []
    case WhatsApp => c.phones != [] || exists o :: o in c.omniIdentities && o.channelType == "whatsapp"
  }

  predicate NeverAsked(c: Contact, channel: Channel) {
    match channel
    case Email => c.emailOptIn.None?
    case Sms => c.smsOptIn.None?
    case WhatsApp => c.whatsappOptIn.None?
  }

  /** The positions of the contacts that `f` holds of. */
  ghost function Those(cs: seq<Contact>, f: Contact -> bool): set<nat> {
    set i: nat | i < |cs| && f(cs[i])
  }

  lemma ThoseGrow(cs: seq<Contact>, f: Contact -> bool)
    requires cs != []
    ensures |Those(cs, f)| == |Those(cs[..|cs| - 1], f)| + if f(cs[|cs| - 1]) then 1 else 0
  {
    var n := |cs| - 1;
    assert Those(cs, f) == Those(cs[..n], f) + if f(cs[n]) then {n} else {};
  }

  /** The preview `p` counts each contact of `cs` where it belongs. */
  ghost predicate Figures(p: AudiencePreview, cs: seq<Contact>, channel: Channel) {
    && p.exact && p.total == |cs|
    && p.refused == |Those(cs, c => Refuses(c, channel))|
    && p.noDestination == |Those(cs, c => !Refuses(c, channel) && !HasAnEntry(c, channel))|
    && p.reachable == |Those(cs, c => !Refuses(c, channel) && HasAnEntry(c, channel))|
    && p.consentUnknown
       == |Those(cs, c => !Refuses(c, channel) && HasAnEntry(c, channel) && NeverAsked(c, channel))|
  }

  lemma BucketExactly(c: Contact, channel: Channel)
    ensures BucketOf(c, channel) == if Refuses(c, channel) then Bucket.Refused
                                    else if HasAnEntry(c, channel) then Reachable else Nowhere
    ensures Consent(c, channel).None? <==> NeverAsked(c, channel)
  {
    if channel == WhatsApp {
      if o :| o in c.omniIdentities && o.channelType == "whatsapp" {
        var i :| 0 <= i < |c.omniIdentities| && c.omniIdentities[i] == o;
      }
    }
  }

  lemma FiguresGrow(p: AudiencePreview, cs: seq<Contact>, channel: Channel)
    requires cs != [] && Figures(p, cs[..|cs| - 1], channel)
    ensures Figures(Counted(p, cs[|cs| - 1], channel), cs, channel)
  {
    var n := |cs| - 1;
    BucketExactly(cs[n], channel);
    ThoseGrow(cs, c => Refuses(c, channel));
    ThoseGrow(cs, c => !Refuses(c, channel) && !HasAnEntry(c, channel));
    ThoseGrow(cs, c => !Refuses(c, channel) && HasAnEntry(c, channel));
    ThoseGrow(cs, c => !Refuses(c, channel) && HasAnEntry(c, channel) && NeverAsked(c, channel));
  }

  /** Every contact is counted once, under its refusal, its missing address or as reachable,
      and those nobody asked among the reachable ones. */
  lemma {:induction false} PreviewCountsExactly(cs: seq<Contact>, channel: Channel)
    ensures Figures(Preview(cs, channel, false), cs, channel)
    ensures Preview(cs, channel, true) == AudiencePreview(0, 0, 0, 0, 0, false)
  {
    if cs != [] {
      PreviewCountsExactly(cs[..|cs| - 1], channel);
      FiguresGrow(Group(cs[..|cs| - 1], channel), cs, channel);
    }
  }
}
