/** Who a mail goes to, and through which provider. */
module MailRouting {
  import opened Wrappers
  import opened Bounces

  type Address = string

  datatype Email = Email(email: Address, isPrimary: bool, isVerified: bool)

  /** The bounce check of an address, and the error it ends with. */
  type Gate = Address -> Option<Refusal>

  datatype Recipients = Recipients(primary: Address, cc: seq<Address>)

  /** `NothingToReport` is the failure without an error to report. */
  datatype SendError = NoSendable | Gated(first: Refusal) | NothingToReport

  // ---------- Choosing the recipients ----------

  datatype Part = Primaries | Secondaries | Everybody

  predicate Sendable(e: Email) { e.isPrimary || e.isVerified }

  predicate Belongs(gate: Gate, e: Email, part: Part) {
    && Sendable(e) && gate(e.email).None?
    && (part.Primaries? ==> e.isPrimary) && (part.Secondaries? ==> !e.isPrimary)
  }

  /** The ungated sendable addresses of one part of the list, in list order. */
  function Deliverable(gate: Gate, emails: seq<Email>, part: Part): seq<Address> {
    if emails == [] then []
    else
      var last := emails[|emails| - 1];
      var front := Deliverable(gate, emails[..|emails| - 1], part);
      if Belongs(gate, last, part) then front + [last.email] else front
  }

  function SendableOf(emails: seq<Email>): seq<Email> {
    if emails == [] then []
    else
      var last := emails[|emails| - 1];
      var front := SendableOf(emails[..|emails| - 1]);
      if Sendable(last) then front + [last] else front
  }

  function Errors(gate: Gate, emails: seq<Email>): seq<Refusal> {
    if emails == [] then []
    else
      var last := emails[|emails| - 1];
      var front := Errors(gate, emails[..|emails| - 1]);
      if Sendable(last) && gate(last.email).Some? then front + [gate(last.email).value] else front
  }

  function LastPrimary(gate: Gate, emails: seq<Email>): Address {
    var p := Deliverable(gate, emails, Primaries);
    if p == [] then "" else p[|p| - 1]
  }

  function Chosen(gate: Gate, emails: seq<Email>): Option<Recipients> {
    var cc := Deliverable(gate, emails, Secondaries);
    var primary := LastPrimary(gate, emails);
    if primary != "" then Some(Recipients(primary, cc))
    else if cc != [] then Some(Recipients(cc[0], cc[1..]))
    else None
  }

  method GetSafeMailerWithEmails(gate: Gate, emails: seq<Email>) returns (r: Result<Recipients, SendError>)
    ensures r.Ok? ==> Chosen(gate, emails) == Some(r.value)
    ensures r.Err? ==> Chosen(gate, emails).None?
    ensures r == Err(NoSendable) <==> SendableOf(emails) == []
    ensures r.Err? && SendableOf(emails) != [] ==>
              r.error == if Errors(gate, emails) != [] then Gated(Errors(gate, emails)[0]) else NothingToReport
    ensures r.Ok? ==> WellChosen(gate, emails, r.value)
    ensures r.Err? ==> WellRefused(gate, emails, r.error)
  {
    ChoiceIsGood(gate, emails);
    if Chosen(gate, emails).None? {
      RefusalIsGood(gate, emails);
    }
    var sendable := [];
    for n := 0 to |emails|
      invariant sendable == SendableOf(emails[..n])
    {
      assert emails[..n + 1][..n] == emails[..n];
      if emails[n].isPrimary || emails[n].isVerified {
        sendable := sendable + [emails[n]];
      }
    }
    assert emails[..|emails|] == emails;
    SendableOnly(gate, emails);
    if sendable == [] {
      return Err(NoSendable);
    }
    var ungatedPrimaryEmail, ungatedCcEmails, gatedEmailErrors := CheckBounces(gate, sendable);
    if ungatedPrimaryEmail == "" {
      if |ungatedCcEmails| == 0 {
        if gatedEmailErrors == [] {
          return Err(NothingToReport);
        }
        return Err(Gated(gatedEmailErrors[0]));
      }
      ungatedPrimaryEmail := ungatedCcEmails[0];
      ungatedCcEmails := ungatedCcEmails[1..];
    }
    return Ok(Recipients(ungatedPrimaryEmail, ungatedCcEmails));
  }

  // ---------- What the choice amounts to ----------

  /** A primary address may be written to, and so may a verified one. */
  predicate Reachable(gate: Gate, e: Email) {
    (e.isPrimary || e.isVerified) && gate(e.email) == None
  }

  /** The places, in order, of the addresses that can be reached, be they the primary ones
      or all the others. */
  function Places(gate: Gate, emails: seq<Email>, primary: bool): seq<nat> {
    if emails == [] then []
    else
      var n := |emails| - 1;
      var before := Places(gate, emails[..n], primary);
      if Reachable(gate, emails[n]) && emails[n].isPrimary == primary then before + [n] else before
  }

  /** They are exactly these, and in order. */
  lemma {:induction false} PlacesMeaning(gate: Gate, emails: seq<Email>, primary: bool)
    ensures forall n: nat :: n in Places(gate, emails, primary) <==>
              n < |emails| && Reachable(gate, emails[n]) && emails[n].isPrimary == primary
    ensures forall i, j :: 0 <= i < j < |Places(gate, emails, primary)| ==>
              Places(gate, emails, primary)[i] < Places(gate, emails, primary)[j]
  {
    if emails == [] {
    } else {
      var n := |emails| - 1;
      PlacesMeaning(gate, emails[..n], primary);
      var before := Places(gate, emails[..n], primary);
      forall i | 0 <= i < |before|
        ensures before[i] < n
      {
        assert before[i] in before;
      }
    }
  }

  /** The addresses at these places. */
  function At(emails: seq<Email>, places: seq<nat>): seq<Address> {
    seq(|places|, i requires 0 <= i < |places| => if places[i] < |emails| then emails[places[i]].email else "")
  }

  lemma {:induction false} DeliverableIsAtPlaces(gate: Gate, emails: seq<Email>, primary: bool)
    ensures Deliverable(gate, emails, if primary then Primaries else Secondaries) ==
            At(emails, Places(gate, emails, primary))
  {
    if emails == [] {
    } else {
      var n := |emails| - 1;
      DeliverableIsAtPlaces(gate, emails[..n], primary);
      PlacesMeaning(gate, emails[..n], primary);
      var before := Places(gate, emails[..n], primary);
      forall i | 0 <= i < |before|
        ensures before[i] < n
      {
        assert before[i] in before;
      }
      assert At(emails, before) == At(emails[..n], before);
      assert At(emails, before + [n]) == At(emails, before) + [emails[n].email];
    }
  }

  /** The last primary address that can be reached is written to, and all the others that
      can be reached get copies, in their order. Without such a primary address, or if it
      is empty, the first of the others takes its place. */
  predicate WellChosen(gate: Gate, emails: seq<Email>, r: Recipients) {
    var primaries := At(emails, Places(gate, emails, true));
    var others := At(emails, Places(gate, emails, false));
    if primaries != [] && primaries[|primaries| - 1] != ""
    then r == Recipients(primaries[|primaries| - 1], others)
    else [r.primary] + r.cc == others
  }

  /** Nobody can be reached, or a primary address that is empty alone; the error is that of
      the first address that was held back. */
  ghost predicate WellRefused(gate: Gate, emails: seq<Email>, e: SendError) {
    && (forall n :: 0 <= n < |emails| && Reachable(gate, emails[n]) ==> emails[n].isPrimary)
    && (e == NoSendable <==> forall n :: 0 <= n < |emails| ==> !emails[n].isPrimary && !emails[n].isVerified)
    && (e.Gated? ==> exists n :: && 0 <= n < |emails| && (emails[n].isPrimary || emails[n].isVerified)
                                 && gate(emails[n].email) == Some(e.first)
                                 && (forall m :: 0 <= m < n && (emails[m].isPrimary || emails[m].isVerified) ==>
                                       gate(emails[m].email) == None))
    && (e == NothingToReport ==>
          forall n :: 0 <= n < |emails| && (emails[n].isPrimary || emails[n].isVerified) ==>
            gate(emails[n].email) == None)
  }

  lemma ChoiceIsGood(gate: Gate, emails: seq<Email>)
    ensures Chosen(gate, emails).Some? ==> WellChosen(gate, emails, Chosen(gate, emails).value)
    ensures Chosen(gate, emails).None? ==>
              forall n :: 0 <= n < |emails| && Reachable(gate, emails[n]) ==> emails[n].isPrimary
  {
    DeliverableIsAtPlaces(gate, emails, true);
    DeliverableIsAtPlaces(gate, emails, false);
    PlacesMeaning(gate, emails, false);
    if Chosen(gate, emails).Some? && LastPrimary(gate, emails) == "" {
      var cc := Deliverable(gate, emails, Secondaries);
      assert [cc[0]] + cc[1..] == cc;
    }
  }

  /** The errors are those of the addresses held back, the first one first. */
  lemma {:induction false} FirstError(gate: Gate, emails: seq<Email>)
    ensures Errors(gate, emails) == [] <==>
              forall n :: 0 <= n < |emails| && Sendable(emails[n]) ==> gate(emails[n].email).None?
    ensures Errors(gate, emails) != [] ==>
              exists n :: && 0 <= n < |emails| && Sendable(emails[n])
                          && gate(emails[n].email) == Some(Errors(gate, emails)[0])
                          && (forall m :: 0 <= m < n && Sendable(emails[m]) ==> gate(emails[m].email).None?)
  {
    if emails == [] {
    } else {
      var front, last := emails[..|emails| - 1], emails[|emails| - 1];
      FirstError(gate, front);
      assert emails == front + [last];
      if Errors(gate, front) != [] {
        var n :| && 0 <= n < |front| && Sendable(front[n])
                 && gate(front[n].email) == Some(Errors(gate, front)[0])
                 && (forall m :: 0 <= m < n && Sendable(front[m]) ==> gate(front[m].email).None?);
        assert emails[n] == front[n];
        assert Errors(gate, emails)[0] == Errors(gate, front)[0];
      } else if Errors(gate, emails) != [] {
        assert Sendable(emails[|front|]) && gate(emails[|front|].email) == Some(Errors(gate, emails)[0]);
      }
    }
  }

  lemma {:induction false} NothingSendable(emails: seq<Email>)
    ensures SendableOf(emails) == [] <==> forall n :: 0 <= n < |emails| ==> !Sendable(emails[n])
  {
    if emails == [] {
    } else {
      NothingSendable(emails[..|emails| - 1]);
      assert emails == emails[..|emails| - 1] + [emails[|emails| - 1]];
    }
  }

  lemma RefusalIsGood(gate: Gate, emails: seq<Email>)
    requires Chosen(gate, emails).None?
    ensures var e := if SendableOf(emails) == [] then NoSendable
                     else if Errors(gate, emails) != [] then Gated(Errors(gate, emails)[0]) else NothingToReport;
            WellRefused(gate, emails, e)
  {
    ChoiceIsGood(gate, emails);
    FirstError(gate, emails);
    NothingSendable(emails);
  }

  /** Asks the gate about every sendable address in turn. */
  method CheckBounces(gate: Gate, sendable: seq<Email>)
    returns (primary: Address, cc: seq<Address>, errors: seq<Refusal>)
    requires forall e :: e in sendable ==> Sendable(e)
    ensures primary == LastPrimary(gate, sendable)
    ensures cc == Deliverable(gate, sendable, Secondaries)
    ensures errors == Errors(gate, sendable)
  {
    primary, cc, errors := "", [], [];
    for n := 0 to |sendable|
      invariant primary == LastPrimary(gate, sendable[..n])
      invariant cc == Deliverable(gate, sendable[..n], Secondaries)
      invariant errors == Errors(gate, sendable[..n])
    {
      assert sendable[..n + 1][..n] == sendable[..n];
      var email := sendable[n];
      assert email in sendable;
      var e := gate(email.email);
      if e.None? {
        if email.isPrimary {
          primary := email.email;
        } else {
          cc := cc + [email.email];
        }
      } else {
        errors := errors + [e.value];
      }
    }
    assert sendable[..|sendable|] == sendable;
  }

  /** Filtering the sendable addresses first makes no difference to what follows. */
  lemma {:induction false} SendableOnly(gate: Gate, emails: seq<Email>)
    ensures forall e :: e in SendableOf(emails) ==> Sendable(e)
    ensures Deliverable(gate, SendableOf(emails), Primaries) == Deliverable(gate, emails, Primaries)
    ensures Deliverable(gate, SendableOf(emails), Secondaries) == Deliverable(gate, emails, Secondaries)
    ensures Errors(gate, SendableOf(emails)) == Errors(gate, emails)
  {
    if emails == [] {
    } else {
      SendableOnly(gate, emails[..|emails| - 1]);
      var s := SendableOf(emails);
      if Sendable(emails[|emails| - 1]) {
        assert s[..|s| - 1] == SendableOf(emails[..|emails| - 1]);
      }
    }
  }

  /** How often an address occurs. */
  function Occurs(s: seq<Address>, a: Address): nat {
    if s == [] then 0
    else Occurs(s[..|s| - 1], a) + if s[|s| - 1] == a then 1 else 0
  }

  lemma OccursAppend(s: seq<Address>, x: Address, a: Address)
    ensures Occurs(s + [x], a) == Occurs(s, a) + if x == a then 1 else 0
  {
    assert (s + [x])[..|s|] == s;
  }

  lemma {:induction false} OccursConcat(s: seq<Address>, t: seq<Address>, a: Address)
    ensures Occurs(s + t, a) == Occurs(s, a) + Occurs(t, a)
  {
    if t == [] {
      assert s + t == s;
    } else {
      OccursConcat(s, t[..|t| - 1], a);
      assert (s + t)[..|s + t| - 1] == s + t[..|t| - 1];
    }
  }

  /** Two lists with the same addresses, each equally often. */
  ghost predicate SameAddresses(s: seq<Address>, t: seq<Address>) {
    forall a :: Occurs(s, a) == Occurs(t, a)
  }

  lemma {:induction false} OccursIsMultiplicity(s: seq<Address>, a: Address)
    ensures multiset(s)[a] == Occurs(s, a)
  {
    if s == [] {
    } else {
      OccursIsMultiplicity(s[..|s| - 1], a);
      assert s == s[..|s| - 1] + [s[|s| - 1]];
    }
  }

  /** Equally often for every address means equal as multisets, so equally long. */
  lemma SameAddressesIsPermutation(s: seq<Address>, t: seq<Address>)
    ensures SameAddresses(s, t) <==> multiset(s) == multiset(t)
    ensures SameAddresses(s, t) ==> |s| == |t|
  {
    forall a
      ensures multiset(s)[a] == Occurs(s, a) && multiset(t)[a] == Occurs(t, a)
    {
      OccursIsMultiplicity(s, a);
      OccursIsMultiplicity(t, a);
    }
    if SameAddresses(s, t) {
      assert multiset(s) == multiset(t);
      assert |multiset(s)| == |s| && |multiset(t)| == |t|;
    }
  }

  lemma {:induction false} DeliverableSplits(gate: Gate, emails: seq<Email>, a: Address)
    ensures Occurs(Deliverable(gate, emails, Everybody), a) ==
            Occurs(Deliverable(gate, emails, Primaries), a) + Occurs(Deliverable(gate, emails, Secondaries), a)
    ensures |Deliverable(gate, emails, Everybody)| ==
            |Deliverable(gate, emails, Primaries)| + |Deliverable(gate, emails, Secondaries)|
  {
    if emails == [] {
    } else {
      DeliverableSplits(gate, emails[..|emails| - 1], a);
      var front, email := emails[..|emails| - 1], emails[|emails| - 1].email;
      OccursAppend(Deliverable(gate, front, Everybody), email, a);
      OccursAppend(Deliverable(gate, front, Primaries), email, a);
      OccursAppend(Deliverable(gate, front, Secondaries), email, a);
    }
  }

  function All(r: Recipients): seq<Address> { [r.primary] + r.cc }

  /** Nothing is lost or sent twice, whatever is deliverable. */
  ghost predicate NoneLost(gate: Gate, emails: seq<Email>) {
    var r := Chosen(gate, emails);
    r.Some? && SameAddresses(All(r.value), Deliverable(gate, emails, Everybody))
  }

  /** The recipients are exactly the deliverable addresses if and only if there is
      something to deliver to, at most one deliverable primary address, and it is not
      the empty string: of several primaries all but the last are lost. */
  lemma RecipientsAreTheDeliverable(gate: Gate, emails: seq<Email>)
    ensures NoneLost(gate, emails) <==>
            && Deliverable(gate, emails, Everybody) != []
            && |Deliverable(gate, emails, Primaries)| <= 1
            && "" !in Deliverable(gate, emails, Primaries)
  {
    if NoneLost(gate, emails) {
      LossFreeNeedsOnePrimary(gate, emails);
    }
    if Deliverable(gate, emails, Everybody) != [] && |Deliverable(gate, emails, Primaries)| <= 1
       && "" !in Deliverable(gate, emails, Primaries) {
      OnePrimaryIsLossFree(gate, emails);
    }
  }

  /** Two primary addresses that both pass the bounce check: the first gets no mail. */
  lemma FirstOfTwoPrimariesIsLost(gate: Gate, a: Address, b: Address)
    requires gate(a).None? && gate(b).None? && a != b && b != ""
    ensures var emails := [Email(a, true, true), Email(b, true, true)];
            && Deliverable(gate, emails, Everybody) == [a, b]
            && Chosen(gate, emails) == Some(Recipients(b, []))
            && !NoneLost(gate, emails)
  {
    var emails := [Email(a, true, true), Email(b, true, true)];
    assert emails[..1] == [emails[0]] && emails[..1][..0] == [];
    forall part
      ensures Deliverable(gate, emails, part) == if part.Secondaries? then [] else [a, b]
    {
      assert Deliverable(gate, [emails[0]], part) == if part.Secondaries? then [] else [a];
    }
    RecipientsAreTheDeliverable(gate, emails);
  }

  lemma LossFreeNeedsOnePrimary(gate: Gate, emails: seq<Email>)
    requires NoneLost(gate, emails)
    ensures Deliverable(gate, emails, Everybody) != []
    ensures |Deliverable(gate, emails, Primaries)| <= 1
    ensures "" !in Deliverable(gate, emails, Primaries)
  {
    var all := All(Chosen(gate, emails).value);
    SameAddressesIsPermutation(all, Deliverable(gate, emails, Everybody));
    DeliverableSplits(gate, emails, "");
    var primaries, cc := Deliverable(gate, emails, Primaries), Deliverable(gate, emails, Secondaries);
    if LastPrimary(gate, emails) != "" {
      assert |all| == 1 + |cc|;
      assert primaries == [primaries[0]];
    } else {
      assert |all| == |cc|;
    }
  }

  lemma OnePrimaryIsLossFree(gate: Gate, emails: seq<Email>)
    requires Deliverable(gate, emails, Everybody) != []
    requires |Deliverable(gate, emails, Primaries)| <= 1
    requires "" !in Deliverable(gate, emails, Primaries)
    ensures NoneLost(gate, emails)
  {
    var primaries, cc := Deliverable(gate, emails, Primaries), Deliverable(gate, emails, Secondaries);
    DeliverableSplits(gate, emails, "");
    if |primaries| == 1 {
      assert primaries[0] in primaries;
      assert primaries == [primaries[0]];
    } else {
      assert cc == [cc[0]] + cc[1..];
    }
    assert All(Chosen(gate, emails).value) == primaries + cc;
    forall a
      ensures Occurs(primaries + cc, a) == Occurs(Deliverable(gate, emails, Everybody), a)
    {
      OccursConcat(primaries, cc, a);
      DeliverableSplits(gate, emails, a);
    }
  }

  // ---------- Choosing the providers ----------

  datatype Service = Sendgrid | Socketlabs | ExternalSes | Internal

  datatype Key = KeySendgrid | KeySocketlabs | KeySes

  /** The live configuration: which keys are configured, and whether a key's rule
      matched the address at a given position (the draw of its percentage included). */
  datatype Routing = Routing(
    live: bool,
    configured: set<Key>,
    matches: (Key, nat) -> bool,
    forced: Address -> bool)

  datatype Routed = Routed(service: Service, emailAddresses: seq<Address>)

  function Matches(c: Routing, key: Key, n: nat): bool {
    c.live && key in c.configured && c.matches(key, n)
  }

  /** The first configured provider that matches, in the fixed order; else the
      provider forced for the address; else this server. */
  function ServiceFor(c: Routing, a: Address, n: nat): Service {
    if Matches(c, KeySendgrid, n) then Sendgrid
    else if Matches(c, KeySocketlabs, n) then Socketlabs
    else if Matches(c, KeySes, n) then ExternalSes
    else if c.forced(a) then ExternalSes
    else Internal
  }

  const KEYS: seq<Key> := [KeySendgrid, KeySocketlabs, KeySes]

  lemma FirstMatch(c: Routing, a: Address, n: nat, k: nat)
    requires k < |KEYS| && Matches(c, KEYS[k], n)
    requires forall j :: 0 <= j < k ==> !Matches(c, KEYS[j], n)
    ensures ServiceFor(c, a, n) == ServiceOf(KEYS[k])
  {
    assert k > 0 ==> !Matches(c, KEYS[0], n);
    assert k > 1 ==> !Matches(c, KEYS[1], n);
  }

  /** Without a match, or outside the live configuration, an address goes to the provider
      forced for it, and all others to this server. Keys that are not configured, or whose
      rule did not match, match nothing. */
  lemma NoMatch(c: Routing, a: Address, n: nat)
    requires !c.live || forall k: Key :: k !in c.configured || !c.matches(k, n)
    ensures ServiceFor(c, a, n) == if c.forced(a) then ExternalSes else Internal
  {
  }

  /** The places, in order, of the addresses that go through a service. */
  function PlacesThrough(c: Routing, addresses: seq<Address>, s: Service): seq<nat> {
    if addresses == [] then []
    else
      var n := |addresses| - 1;
      var before := PlacesThrough(c, addresses[..n], s);
      if ServiceFor(c, addresses[n], n) == s then before + [n] else before
  }

  /** The addresses of a service are those it was chosen for, each at its own place and in
      their original order. */
  lemma {:induction false} ThroughKeepsOrder(c: Routing, addresses: seq<Address>, s: Service)
    ensures var places := PlacesThrough(c, addresses, s);
            && |Through(c, addresses, s)| == |places|
            && (forall n: nat :: n in places <==> n < |addresses| && ServiceFor(c, addresses[n], n) == s)
            && (forall i, j :: 0 <= i < j < |places| ==> places[i] < places[j])
            && (forall i :: 0 <= i < |places| ==>
                  places[i] < |addresses| && Through(c, addresses, s)[i] == addresses[places[i]])
  {
    if addresses == [] {
    } else {
      ThroughKeepsOrder(c, addresses[..|addresses| - 1], s);
    }
  }

  /** The addresses of a service, in their original order. */
  function Through(c: Routing, addresses: seq<Address>, s: Service): seq<Address> {
    if addresses == [] then []
    else
      var n := |addresses| - 1;
      var front := Through(c, addresses[..n], s);
      if ServiceFor(c, addresses[n], n) == s then front + [addresses[n]] else front
  }

  function ServiceOf(key: Key): Service {
    match key
    case KeySendgrid => Sendgrid
    case KeySocketlabs => Socketlabs
    case KeySes => ExternalSes
  }

  /** The services so far, each once, with exactly their addresses. */
  ghost predicate RoutesAll(c: Routing, addresses: seq<Address>, services: seq<Routed>) {
    && (forall i, j :: 0 <= i < j < |services| ==> services[i].service != services[j].service)
    && (forall i :: 0 <= i < |services| ==>
          && services[i].emailAddresses == Through(c, addresses, services[i].service)
          && services[i].emailAddresses != [])
    && (forall s :: Through(c, addresses, s) != [] ==> exists i :: 0 <= i < |services| && services[i].service == s)
  }

  method UpsertServicesMap(services: seq<Routed>, service: Service, a: Address) returns (r: seq<Routed>)
    requires forall i, j :: 0 <= i < j < |services| ==> services[i].service != services[j].service
    ensures (exists i :: 0 <= i < |services| && services[i].service == service) ==>
              && |r| == |services|
              && (forall i :: 0 <= i < |r| ==>
                    r[i] == if services[i].service == service
                            then Routed(service, services[i].emailAddresses + [a]) else services[i])
    ensures !(exists i :: 0 <= i < |services| && services[i].service == service) ==>
              r == services + [Routed(service, [a])]
  {
    for i := 0 to |services|
      invariant forall j :: 0 <= j < i ==> services[j].service != service
    {
      if services[i].service == service {
        return services[i := Routed(service, services[i].emailAddresses + [a])];
      }
    }
    return services + [Routed(service, [a])];
  }

  method SelectEmailServices(c: Routing, email: Address, ccEmails: seq<Address>) returns (services: seq<Routed>)
    ensures RoutesAll(c, [email] + ccEmails, services)
  {
    var emailAddresses := [email] + ccEmails;
    services := [];
    for n := 0 to |emailAddresses|
      invariant RoutesAll(c, emailAddresses[..n], services)
    {
      var a := emailAddresses[n];
      var isMatched := false;
      var service := Internal;
      if c.live {
        for k := 0 to |KEYS|
          invariant isMatched <==> exists j :: 0 <= j < k && Matches(c, KEYS[j], n)
          invariant isMatched ==> service == ServiceFor(c, a, n)
        {
          var result := KEYS[k] in c.configured && c.matches(KEYS[k], n);
          if !isMatched {
            isMatched := result;
            if isMatched {
              FirstMatch(c, a, n, k);
              service := ServiceOf(KEYS[k]);
            }
          }
        }
        assert Matches(c, KEYS[0], n) || Matches(c, KEYS[1], n) || Matches(c, KEYS[2], n) ==> isMatched;
      }
      if !isMatched {
        service := if c.forced(a) then ExternalSes else Internal;
      }
      ghost var before := services;
      services := UpsertServicesMap(services, service, a);
      assert emailAddresses[..n + 1][..n] == emailAddresses[..n];
      UpsertRoutes(c, emailAddresses[..n + 1], before, services);
    }
    assert emailAddresses[..|emailAddresses|] == emailAddresses;
  }

  lemma UpsertRoutes(c: Routing, addresses: seq<Address>, before: seq<Routed>, after: seq<Routed>)
    requires addresses != []
    requires RoutesAll(c, addresses[..|addresses| - 1], before)
    requires var n := |addresses| - 1;
             var service := ServiceFor(c, addresses[n], n);
             && ((exists i :: 0 <= i < |before| && before[i].service == service) ==>
                   && |after| == |before|
                   && (forall i :: 0 <= i < |after| ==>
                         after[i] == if before[i].service == service
                                     then Routed(service, before[i].emailAddresses + [addresses[n]]) else before[i]))
             && (!(exists i :: 0 <= i < |before| && before[i].service == service) ==>
                   after == before + [Routed(service, [addresses[n]])])
    ensures RoutesAll(c, addresses, after)
  {
    var n := |addresses| - 1;
    var front := addresses[..n];
    var service := ServiceFor(c, addresses[n], n);
    if exists i :: 0 <= i < |before| && before[i].service == service {
      forall s | Through(c, addresses, s) != []
        ensures exists i :: 0 <= i < |after| && after[i].service == s
      {
        if s != service {
          assert Through(c, front, s) != [];
        }
        var i :| 0 <= i < |before| && before[i].service == s;
        assert after[i].service == s;
      }
    } else {
      assert Through(c, front, service) == [];
      assert after[|before|].service == service;
      forall s | Through(c, addresses, s) != []
        ensures exists i :: 0 <= i < |after| && after[i].service == s
      {
        if s != service {
          assert Through(c, front, s) != [];
          var i :| 0 <= i < |before| && before[i].service == s;
          assert after[i].service == s;
        }
      }
    }
  }

  // ---------- Every recipient once ----------

  /** The mail of one service: one `to` address, the others as `cc`. */
  function To(s: Routed): Address
    requires s.emailAddresses != []
  {
    s.emailAddresses[0]
  }

  function Cc(s: Routed): seq<Address>
    requires s.emailAddresses != []
  {
    s.emailAddresses[1..]
  }

  /** All `to` and `cc` addresses of the mails sent. */
  function Envelopes(services: seq<Routed>): seq<Address>
    requires forall i :: 0 <= i < |services| ==> services[i].emailAddresses != []
  {
    if services == [] then []
    else Envelopes(services[..|services| - 1]) + [To(services[|services| - 1])] + Cc(services[|services| - 1])
  }

  ghost function Share(c: Routing, addresses: seq<Address>, within: set<Service>, s: Service, a: Address): nat {
    if s in within then Occurs(Through(c, addresses, s), a) else 0
  }

  ghost function Total(c: Routing, addresses: seq<Address>, within: set<Service>, a: Address): nat {
    Share(c, addresses, within, Sendgrid, a) + Share(c, addresses, within, Socketlabs, a) +
    Share(c, addresses, within, ExternalSes, a) + Share(c, addresses, within, Internal, a)
  }

  const SERVICES: set<Service> := {Sendgrid, Socketlabs, ExternalSes, Internal}

  lemma ShareGrows(c: Routing, addresses: seq<Address>, s: Service, a: Address)
    requires addresses != []
    ensures var n := |addresses| - 1;
            Occurs(Through(c, addresses, s), a) ==
            Occurs(Through(c, addresses[..n], s), a) +
            if ServiceFor(c, addresses[n], n) == s && addresses[n] == a then 1 else 0
  {
    var n := |addresses| - 1;
    OccursAppend(Through(c, addresses[..n], s), addresses[n], a);
  }

  lemma {:induction false} TotalIsAll(c: Routing, addresses: seq<Address>, a: Address)
    ensures Total(c, addresses, SERVICES, a) == Occurs(addresses, a)
  {
    if addresses == [] {
    } else {
      TotalIsAll(c, addresses[..|addresses| - 1], a);
      ShareGrows(c, addresses, Sendgrid, a);
      ShareGrows(c, addresses, Socketlabs, a);
      ShareGrows(c, addresses, ExternalSes, a);
      ShareGrows(c, addresses, Internal, a);
    }
  }

  lemma TotalGrows(c: Routing, addresses: seq<Address>, within: set<Service>, s: Service, a: Address)
    requires s !in within
    ensures Total(c, addresses, within + {s}, a) ==
            Total(c, addresses, within, a) + Occurs(Through(c, addresses, s), a)
  {
    match s {
      case Sendgrid =>
      case Socketlabs =>
      case ExternalSes =>
      case Internal =>
    }
  }

  function ServiceSet(services: seq<Routed>): set<Service> {
    if services == [] then {}
    else ServiceSet(services[..|services| - 1]) + {services[|services| - 1].service}
  }

  lemma {:induction false} ServiceSetMembers(services: seq<Routed>)
    ensures forall s :: s in ServiceSet(services) <==> exists i :: 0 <= i < |services| && services[i].service == s
  {
    if services == [] {
    } else {
      ServiceSetMembers(services[..|services| - 1]);
    }
  }

  lemma EnvelopesGrow(services: seq<Routed>, last: Routed, a: Address)
    requires forall i :: 0 <= i < |services| ==> services[i].emailAddresses != []
    requires last.emailAddresses != []
    ensures Occurs(Envelopes(services + [last]), a) == Occurs(Envelopes(services), a) + Occurs(last.emailAddresses, a)
  {
    assert (services + [last])[..|services|] == services;
    assert last.emailAddresses == [To(last)] + Cc(last);
    assert Envelopes(services + [last]) == Envelopes(services) + last.emailAddresses;
    OccursConcat(Envelopes(services), last.emailAddresses, a);
  }

  lemma {:induction false} EnvelopesAreTotal(c: Routing, addresses: seq<Address>, services: seq<Routed>, a: Address)
    requires forall i, j :: 0 <= i < j < |services| ==> services[i].service != services[j].service
    requires forall i :: 0 <= i < |services| ==>
               && services[i].emailAddresses == Through(c, addresses, services[i].service)
               && services[i].emailAddresses != []
    ensures Occurs(Envelopes(services), a) == Total(c, addresses, ServiceSet(services), a)
  {
    if services == [] {
    } else {
      var front := services[..|services| - 1];
      var last := services[|services| - 1];
      assert services == front + [last];
      EnvelopesAreTotal(c, addresses, front, a);
      EnvelopesGrow(front, last, a);
      ServiceSetMembers(front);
      TotalGrows(c, addresses, ServiceSet(front), last.service, a);
    }
  }

  /** A service that is not listed has no addresses. */
  lemma ListedIsTotal(c: Routing, addresses: seq<Address>, services: seq<Routed>, a: Address)
    requires RoutesAll(c, addresses, services)
    ensures Total(c, addresses, ServiceSet(services), a) == Total(c, addresses, SERVICES, a)
  {
    ServiceSetMembers(services);
    forall s
      ensures Share(c, addresses, ServiceSet(services), s, a) == Share(c, addresses, SERVICES, s, a)
    {
      if Through(c, addresses, s) != [] {
        var i :| 0 <= i < |services| && services[i].service == s;
      }
    }
  }

  /** Over all services together each recipient is used exactly as often as it was
      asked for, as `to` or as `cc`. */
  lemma EveryRecipientOnce(c: Routing, addresses: seq<Address>, services: seq<Routed>)
    requires RoutesAll(c, addresses, services)
    ensures SameAddresses(Envelopes(services), addresses)
    ensures multiset(Envelopes(services)) == multiset(addresses)
  {
    forall a
      ensures Occurs(Envelopes(services), a) == Occurs(addresses, a)
    {
      EnvelopesAreTotal(c, addresses, services, a);
      TotalIsAll(c, addresses, a);
      ListedIsTotal(c, addresses, services, a);
    }
    SameAddressesIsPermutation(Envelopes(services), addresses);
  }
}
