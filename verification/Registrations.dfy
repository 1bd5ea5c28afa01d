/** Responses to an event occurrence, its participants and its capacity (events/registration.py). */
module Registrations {
  import opened Wrappers
  import opened Sums
  import opened Text

  datatype Response = Going | Maybe | NotGoing
  datatype PaymentStatus = NotRequired | AwaitingPayment | Paid | Refunded
  datatype Source = Public | Invitation | Manager
  datatype Person = Person(firstName: string, lastName: string)

  /** `ticketed` says whether the occurrence has an active ticket type. */
  datatype Occurrence = Occurrence(
    scheduled: bool, published: bool, inviteOnly: bool,
    maxGuests: nat, capacity: Option<nat>, ticketed: bool)

  datatype Contact = Contact(id: nat, name: Person, sameSite: bool)

  datatype Registration = Registration(
    occurrence: nat, contact: nat, response: Response, source: Source, payment: PaymentStatus)
  datatype Participant = Participant(registration: nat, name: Person, isPrimary: bool, active: bool)
  datatype HistoryEntry = HistoryEntry(
    registration: nat, previous: Option<Response>, current: Response, guestCount: nat, source: Source)

  /** The three tables; a row's id is its index, rows are never deleted. */
  datatype Roster = Roster(
    registrations: seq<Registration>, participants: seq<Participant>, history: seq<HistoryEntry>)

  /** `invitation` is the occurrence of the invitation presented, if any. */
  datatype Request = Request(
    occurrence: nat, contact: Contact, response: Response, guests: seq<Person>,
    source: Source, invitation: Option<nat>)

  datatype Refusal =
    | NotAcceptingResponses | InvitationRequired | InvitationInvalid | WrongSite
    | PrimaryNameMissing | GuestNameMissing | TooManyGuests | RefundFirst | CapacityExceeded

  const EMPTY := Roster([], [], [])

  // ---- Queries ----

  predicate HasName(p: Person) {
    !IsBlank(p.firstName) && !IsBlank(p.lastName)
  }

  function FindRegistration(rows: seq<Registration>, occurrence: nat, contact: nat): (found: Option<nat>)
    ensures found.Some? ==>
              found.value < |rows| && rows[found.value].occurrence == occurrence
              && rows[found.value].contact == contact
    ensures found.None? ==>
              forall g :: 0 <= g < |rows| ==> !(rows[g].occurrence == occurrence && rows[g].contact == contact)
  {
    if rows == [] then None
    else
      var last := |rows| - 1;
      if rows[last].occurrence == occurrence && rows[last].contact == contact then Some(last)
      else FindRegistration(rows[..last], occurrence, contact)
  }

  predicate Confirmed(g: Registration) {
    g.response == Going && (g.payment == NotRequired || g.payment == Paid)
  }

  /** One spot per active participant of a confirmed registration, leaving one registration out. */
  function SpotOf(r: Roster, occurrence: nat, without: Option<nat>): nat -> int {
    (i: nat) =>
      if i >= |r.participants| then 0
      else
        var p := r.participants[i];
        if p.active && p.registration < |r.registrations| && without != Some(p.registration)
           && r.registrations[p.registration].occurrence == occurrence
           && Confirmed(r.registrations[p.registration])
        then 1 else 0
  }

  function SpotsTaken(r: Roster, occurrence: nat, without: Option<nat>): int {
    Sum(SpotOf(r, occurrence, without), |r.participants|)
  }

  function ActiveParty(rows: seq<Participant>, registration: nat): seq<Participant> {
    if rows == [] then []
    else
      var last := rows[|rows| - 1];
      ActiveParty(rows[..|rows| - 1], registration)
      + (if last.active && last.registration == registration then [last] else [])
  }

  // ---- save_response ----

  function GuestsOf(q: Request): seq<Person> {
    if q.response == Going then q.guests else []
  }

  function AccessRefusal(occurrence: Occurrence, q: Request): Option<Refusal> {
    if !occurrence.scheduled || !occurrence.published then Some(NotAcceptingResponses)
    else if occurrence.inviteOnly && q.source == Public then Some(InvitationRequired)
    else if q.source == Invitation && q.invitation != Some(q.occurrence) then Some(InvitationInvalid)
    else None
  }

  function RequestedSpots(occurrence: Occurrence, q: Request): nat {
    if q.response == Going && !occurrence.ticketed then 1 + |GuestsOf(q)| else 0
  }

  /** Every reason to refuse other than capacity, in the order they are checked. */
  function FormRefusal(occurrences: seq<Occurrence>, r: Roster, q: Request): Option<Refusal>
    requires q.occurrence < |occurrences|
  {
    var occurrence := occurrences[q.occurrence];
    var existing := FindRegistration(r.registrations, q.occurrence, q.contact.id);
    var access := AccessRefusal(occurrence, q);
    if access.Some? then access
    else if !q.contact.sameSite then Some(WrongSite)
    else if q.response == Going && !HasName(q.contact.name) then Some(PrimaryNameMissing)
    else if exists p :: p in GuestsOf(q) && !HasName(p) then Some(GuestNameMissing)
    else if |GuestsOf(q)| > occurrence.maxGuests then Some(TooManyGuests)
    else if existing.Some? && r.registrations[existing.value].payment == Paid
            && q.response != r.registrations[existing.value].response then Some(RefundFirst)
    else None
  }

  function WhyRefused(occurrences: seq<Occurrence>, r: Roster, q: Request): Option<Refusal>
    requires q.occurrence < |occurrences|
  {
    var occurrence := occurrences[q.occurrence];
    var existing := FindRegistration(r.registrations, q.occurrence, q.contact.id);
    var form := FormRefusal(occurrences, r, q);
    if form.Some? then form
    else if occurrence.capacity.Some?
            && SpotsTaken(r, q.occurrence, existing) + RequestedSpots(occurrence, q) > occurrence.capacity.value
    then Some(CapacityExceeded)
    else None
  }

  function CancelParty(rows: seq<Participant>, registration: nat): (r: seq<Participant>)
    ensures |r| == |rows|
  {
    seq(|rows|, i requires 0 <= i < |rows| =>
      if rows[i].registration == registration then rows[i].(active := false) else rows[i])
  }

  function GuestRows(registration: nat, guests: seq<Person>): (r: seq<Participant>)
    ensures |r| == |guests|
  {
    seq(|guests|, i requires 0 <= i < |guests| => Participant(registration, guests[i], false, true))
  }

  function NewParty(registration: nat, q: Request): seq<Participant> {
    if q.response == Going
    then [Participant(registration, q.contact.name, true, true)] + GuestRows(registration, q.guests)
    else []
  }

  function RegistrationRow(occurrence: Occurrence, q: Request): Registration {
    Registration(q.occurrence, q.contact.id, q.response, q.source,
                 if occurrence.ticketed && q.response == Going then AwaitingPayment else NotRequired)
  }

  /** The registration a request creates or replaces. */
  function TargetOf(r: Roster, q: Request): nat {
    FindRegistration(r.registrations, q.occurrence, q.contact.id).GetOr(|r.registrations|)
  }

  function Record(occurrences: seq<Occurrence>, r: Roster, q: Request): Roster
    requires q.occurrence < |occurrences|
  {
    var existing := FindRegistration(r.registrations, q.occurrence, q.contact.id);
    var target := TargetOf(r, q);
    var row := RegistrationRow(occurrences[q.occurrence], q);
    Roster(
      if existing.Some? then r.registrations[target := row] else r.registrations + [row],
      CancelParty(r.participants, target) + NewParty(target, q),
      r.history + [HistoryEntry(
        target,
        if existing.Some? then Some(r.registrations[target].response) else None,
        q.response, |GuestsOf(q)|, q.source)])
  }

  function SaveResponse(occurrences: seq<Occurrence>, r: Roster, q: Request): Result<Roster, Refusal> {
    if q.occurrence >= |occurrences| then Err(NotAcceptingResponses)
    else
      var refusal := WhyRefused(occurrences, r, q);
      if refusal.Some? then Err(refusal.value) else Ok(Record(occurrences, r, q))
  }

  // ---- What every response keeps ----

  function LastEntry(history: seq<HistoryEntry>, registration: nat): Option<HistoryEntry> {
    if history == [] then None
    else if history[|history| - 1].registration == registration then Some(history[|history| - 1])
    else LastEntry(history[..|history| - 1], registration)
  }

  /** Each entry starts from the response the registration's previous entry ended in. */
  ghost predicate HistoryChained(history: seq<HistoryEntry>) {
    forall k :: 0 <= k < |history| ==>
      history[k].previous == EntryResponse(LastEntry(history[..k], history[k].registration))
  }

  function EntryResponse(e: Option<HistoryEntry>): Option<Response> {
    if e.Some? then Some(e.value.current) else None
  }

  ghost predicate PartyShape(occurrence: Occurrence, registration: Registration, party: seq<Participant>, entry: HistoryEntry) {
    && entry.current == registration.response
    && if registration.response == Going then
         && |party| == 1 + entry.guestCount
         && entry.guestCount <= occurrence.maxGuests
         && party[0].isPrimary
         && (forall k :: 1 <= k < |party| ==> !party[k].isPrimary)
       else
         party == [] && entry.guestCount == 0
  }

  ghost predicate References(occurrences: seq<Occurrence>, r: Roster) {
    && (forall i :: 0 <= i < |r.participants| ==> r.participants[i].registration < |r.registrations|)
    && (forall g :: 0 <= g < |r.registrations| ==> r.registrations[g].occurrence < |occurrences|)
  }

  ghost predicate OnePerContact(r: Roster) {
    forall g, h :: 0 <= g < h < |r.registrations| ==>
      r.registrations[g].occurrence != r.registrations[h].occurrence
      || r.registrations[g].contact != r.registrations[h].contact
  }

  ghost predicate ShapedAt(occurrences: seq<Occurrence>, r: Roster, g: nat)
    requires References(occurrences, r) && g < |r.registrations|
  {
    && LastEntry(r.history, g).Some?
    && PartyShape(occurrences[r.registrations[g].occurrence], r.registrations[g],
                  ActiveParty(r.participants, g), LastEntry(r.history, g).value)
  }

  ghost predicate FreeNeedsNoPayment(occurrences: seq<Occurrence>, r: Roster)
    requires References(occurrences, r)
  {
    forall g :: 0 <= g < |r.registrations| && !occurrences[r.registrations[g].occurrence].ticketed ==>
      r.registrations[g].payment == NotRequired
  }

  ghost predicate WithinCapacity(occurrences: seq<Occurrence>, r: Roster) {
    forall o: nat :: o < |occurrences| && !occurrences[o].ticketed && occurrences[o].capacity.Some? ==>
      SpotsTaken(r, o, None) <= occurrences[o].capacity.value
  }

  ghost predicate Consistent(occurrences: seq<Occurrence>, r: Roster) {
    && References(occurrences, r)
    && OnePerContact(r)
    && (forall g: nat :: g < |r.registrations| ==> ShapedAt(occurrences, r, g))
    && HistoryChained(r.history)
    && FreeNeedsNoPayment(occurrences, r)
    && WithinCapacity(occurrences, r)
  }

  // ---- Parties ----

  lemma {:induction false} ActivePartyOfConcat(a: seq<Participant>, b: seq<Participant>, g: nat)
    ensures ActiveParty(a + b, g) == ActiveParty(a, g) + ActiveParty(b, g)
  {
    if b == [] {
      assert a + b == a;
    } else {
      var n := |b| - 1;
      assert (a + b)[..|a + b| - 1] == a + b[..n];
      ActivePartyOfConcat(a, b[..n], g);
    }
  }

  lemma {:induction false} ActivePartyAfterCancel(rows: seq<Participant>, target: nat, g: nat)
    ensures ActiveParty(CancelParty(rows, target), g) == if g == target then [] else ActiveParty(rows, g)
  {
    if rows != [] {
      var n := |rows| - 1;
      assert CancelParty(rows, target)[..n] == CancelParty(rows[..n], target);
      ActivePartyAfterCancel(rows[..n], target, g);
    }
  }

  lemma {:induction false} ActivePartyOfOne(rows: seq<Participant>, target: nat, g: nat)
    requires forall i :: 0 <= i < |rows| ==> rows[i].active && rows[i].registration == target
    ensures ActiveParty(rows, g) == if g == target then rows else []
  {
    if rows != [] {
      var n := |rows| - 1;
      ActivePartyOfOne(rows[..n], target, g);
      assert rows == rows[..n] + [rows[n]];
    }
  }

  /** A recorded response replaces exactly the target's party, and nobody else's. */
  lemma PartiesAfterRecord(occurrences: seq<Occurrence>, r: Roster, q: Request, g: nat)
    requires q.occurrence < |occurrences|
    ensures var target := TargetOf(r, q);
            ActiveParty(Record(occurrences, r, q).participants, g)
            == if g == target then NewParty(target, q) else ActiveParty(r.participants, g)
  {
    var target := TargetOf(r, q);
    ActivePartyOfConcat(CancelParty(r.participants, target), NewParty(target, q), g);
    ActivePartyAfterCancel(r.participants, target, g);
    ActivePartyOfOne(NewParty(target, q), target, g);
  }

  // ---- Capacity ----

  /** After a recorded response, the target's old spots are gone and the new party's are added. */
  lemma SpotsAfterRecord(occurrences: seq<Occurrence>, r: Roster, q: Request, o: nat)
    requires References(occurrences, r) && q.occurrence < |occurrences|
    ensures var existing := FindRegistration(r.registrations, q.occurrence, q.contact.id);
            SpotsTaken(Record(occurrences, r, q), o, None)
            == if o == q.occurrence then SpotsTaken(r, o, existing) + RequestedSpots(occurrences[o], q)
               else SpotsTaken(r, o, None)
  {
    var existing := FindRegistration(r.registrations, q.occurrence, q.contact.id);
    var target := TargetOf(r, q);
    var after := Record(occurrences, r, q);
    var n, m := |r.participants|, |after.participants|;
    var f := SpotOf(after, o, None);
    var mine := if o == q.occurrence && Confirmed(RegistrationRow(occurrences[q.occurrence], q)) then 1 else 0;
    SumConstantTail(f, n, m, mine);
    SumEqual(SpotOf(r, o, if o == q.occurrence then existing else None), f, n);
  }

  // ---- History ----

  lemma LastEntryAfterRecord(history: seq<HistoryEntry>, e: HistoryEntry, g: nat)
    ensures LastEntry(history + [e], g) == if e.registration == g then Some(e) else LastEntry(history, g)
  {
    assert (history + [e])[..|history|] == history;
  }

  lemma ChainAfterRecord(history: seq<HistoryEntry>, e: HistoryEntry)
    requires HistoryChained(history)
    requires e.previous == EntryResponse(LastEntry(history, e.registration))
    ensures HistoryChained(history + [e])
  {
    var longer := history + [e];
    forall k | 0 <= k < |longer|
      ensures longer[k].previous == EntryResponse(LastEntry(longer[..k], longer[k].registration))
    {
      assert longer[..k] == history[..k];
      if k == |history| {
        assert history[..k] == history;
      }
    }
  }

  /** No entry mentions a registration that does not exist yet. */
  ghost predicate HistoryKnown(r: Roster) {
    forall g: nat :: g >= |r.registrations| ==> LastEntry(r.history, g).None?
  }

  // ---- The invariant ----

  lemma RecordKeepsReferences(occurrences: seq<Occurrence>, r: Roster, q: Request)
    requires References(occurrences, r) && q.occurrence < |occurrences|
    ensures References(occurrences, Record(occurrences, r, q))
  {
  }

  lemma RecordKeepsOnePerContact(occurrences: seq<Occurrence>, r: Roster, q: Request)
    requires OnePerContact(r) && q.occurrence < |occurrences|
    ensures OnePerContact(Record(occurrences, r, q))
  {
  }

  lemma RecordKeepsFree(occurrences: seq<Occurrence>, r: Roster, q: Request)
    requires References(occurrences, r) && FreeNeedsNoPayment(occurrences, r) && q.occurrence < |occurrences|
    requires References(occurrences, Record(occurrences, r, q))
    ensures FreeNeedsNoPayment(occurrences, Record(occurrences, r, q))
  {
  }

  lemma RecordKeepsHistory(occurrences: seq<Occurrence>, r: Roster, q: Request)
    requires q.occurrence < |occurrences| && HistoryKnown(r) && HistoryChained(r.history)
    requires TargetOf(r, q) < |r.registrations| ==>
               EntryResponse(LastEntry(r.history, TargetOf(r, q)))
               == Some(r.registrations[TargetOf(r, q)].response)
    ensures var after := Record(occurrences, r, q);
            HistoryKnown(after) && HistoryChained(after.history)
  {
    var entry := Record(occurrences, r, q).history[|r.history|];
    forall g: nat | g != TargetOf(r, q)
      ensures LastEntry(r.history + [entry], g) == LastEntry(r.history, g)
    {
      LastEntryAfterRecord(r.history, entry, g);
    }
    ChainAfterRecord(r.history, entry);
  }

  lemma RecordKeepsShape(occurrences: seq<Occurrence>, r: Roster, q: Request, g: nat)
    requires q.occurrence < |occurrences| && |GuestsOf(q)| <= occurrences[q.occurrence].maxGuests
    requires References(occurrences, r) && References(occurrences, Record(occurrences, r, q))
    requires g < |Record(occurrences, r, q).registrations|
    requires g < |r.registrations| ==> ShapedAt(occurrences, r, g)
    ensures ShapedAt(occurrences, Record(occurrences, r, q), g)
  {
    var after := Record(occurrences, r, q);
    PartiesAfterRecord(occurrences, r, q, g);
    LastEntryAfterRecord(r.history, after.history[|r.history|], g);
    if g != TargetOf(r, q) {
      assert after.registrations[g] == r.registrations[g];
      assert LastEntry(after.history, g) == LastEntry(r.history, g);
    } else {
      assert after.registrations[g] == RegistrationRow(occurrences[q.occurrence], q);
    }
  }

  lemma RecordKeepsCapacity(occurrences: seq<Occurrence>, r: Roster, q: Request)
    requires q.occurrence < |occurrences| && References(occurrences, r) && WithinCapacity(occurrences, r)
    requires WhyRefused(occurrences, r, q).None?
    ensures WithinCapacity(occurrences, Record(occurrences, r, q))
  {
    forall o: nat | o < |occurrences| && !occurrences[o].ticketed && occurrences[o].capacity.Some?
      ensures SpotsTaken(Record(occurrences, r, q), o, None) <= occurrences[o].capacity.value
    {
      SpotsAfterRecord(occurrences, r, q, o);
    }
  }

  lemma SaveResponseKeepsConsistent(occurrences: seq<Occurrence>, r: Roster, q: Request)
    requires Consistent(occurrences, r) && HistoryKnown(r)
    requires SaveResponse(occurrences, r, q).Ok?
    ensures var after := SaveResponse(occurrences, r, q).value;
            Consistent(occurrences, after) && HistoryKnown(after)
  {
    RecordKeepsReferences(occurrences, r, q);
    RecordKeepsOnePerContact(occurrences, r, q);
    RecordKeepsFree(occurrences, r, q);
    assert TargetOf(r, q) < |r.registrations| ==> ShapedAt(occurrences, r, TargetOf(r, q));
    RecordKeepsHistory(occurrences, r, q);
    RecordKeepsCapacity(occurrences, r, q);
    forall g: nat | g < |Record(occurrences, r, q).registrations|
      ensures ShapedAt(occurrences, Record(occurrences, r, q), g)
    {
      RecordKeepsShape(occurrences, r, q, g);
    }
  }

  /** A sequence of requests; refused ones change nothing. */
  function Responses(occurrences: seq<Occurrence>, r: Roster, requests: seq<Request>): Roster {
    if requests == [] then r
    else
      var before := Responses(occurrences, r, requests[..|requests| - 1]);
      var outcome := SaveResponse(occurrences, before, requests[|requests| - 1]);
      if outcome.Ok? then outcome.value else before
  }

  lemma {:induction false} ResponsesKeepConsistent(occurrences: seq<Occurrence>, requests: seq<Request>)
    ensures var r := Responses(occurrences, EMPTY, requests);
            Consistent(occurrences, r) && HistoryKnown(r)
  {
    if requests != [] {
      var n := |requests| - 1;
      ResponsesKeepConsistent(occurrences, requests[..n]);
      var before := Responses(occurrences, EMPTY, requests[..n]);
      if SaveResponse(occurrences, before, requests[n]).Ok? {
        SaveResponseKeepsConsistent(occurrences, before, requests[n]);
      }
    }
  }

  /** Active participants of GOING registrations, whatever their payment. */
  function HeadOf(r: Roster, occurrence: nat): nat -> int {
    (i: nat) =>
      if i < |r.participants| && r.participants[i].active
         && r.participants[i].registration < |r.registrations|
         && r.registrations[r.participants[i].registration].occurrence == occurrence
         && r.registrations[r.participants[i].registration].response == Going
      then 1 else 0
  }

  function GoingHeads(r: Roster, occurrence: nat): int {
    Sum(HeadOf(r, occurrence), |r.participants|)
  }

  /** No sequence of responses fills a free occurrence beyond its capacity. */
  lemma CapacityIsNeverExceeded(occurrences: seq<Occurrence>, requests: seq<Request>, o: nat)
    requires o < |occurrences| && !occurrences[o].ticketed && occurrences[o].capacity.Some?
    ensures GoingHeads(Responses(occurrences, EMPTY, requests), o) <= occurrences[o].capacity.value
  {
    ResponsesKeepConsistent(occurrences, requests);
    var r := Responses(occurrences, EMPTY, requests);
    SumEqual(HeadOf(r, o), SpotOf(r, o, None), |r.participants|);
  }

  /** A GOING registration has its primary and at most `maxGuests` guests active, any other nobody. */
  lemma PartiesKeepTheirShape(occurrences: seq<Occurrence>, requests: seq<Request>, g: nat)
    requires g < |Responses(occurrences, EMPTY, requests).registrations|
    ensures var r := Responses(occurrences, EMPTY, requests);
            var registration := r.registrations[g];
            var party := ActiveParty(r.participants, g);
            && registration.occurrence < |occurrences|
            && (registration.response == Going ==>
                  && 1 <= |party| <= 1 + occurrences[registration.occurrence].maxGuests
                  && party[0].isPrimary
                  && forall k :: 1 <= k < |party| ==> !party[k].isPrimary)
            && (registration.response != Going ==> party == [])
  {
    ResponsesKeepConsistent(occurrences, requests);
    assert ShapedAt(occurrences, Responses(occurrences, EMPTY, requests), g);
  }

  /** The history chains, and its last entry for a registration is that registration as it stands. */
  lemma HistoryMatchesRoster(occurrences: seq<Occurrence>, requests: seq<Request>, g: nat)
    requires g < |Responses(occurrences, EMPTY, requests).registrations|
    ensures var r := Responses(occurrences, EMPTY, requests);
            var last := LastEntry(r.history, g);
            && HistoryChained(r.history)
            && last.Some? && last.value.current == r.registrations[g].response
            && |ActiveParty(r.participants, g)|
               == if r.registrations[g].response == Going then 1 + last.value.guestCount else 0
  {
    ResponsesKeepConsistent(occurrences, requests);
    assert ShapedAt(occurrences, Responses(occurrences, EMPTY, requests), g);
  }

  /** Apart from capacity, a response is accepted exactly when the occurrence is open to its sender and everyone who comes has a name. */
  lemma ResponseAllowedExactly(occurrences: seq<Occurrence>, r: Roster, q: Request)
    requires q.occurrence < |occurrences|
    ensures var o := occurrences[q.occurrence];
            var existing := FindRegistration(r.registrations, q.occurrence, q.contact.id);
            FormRefusal(occurrences, r, q).None? <==>
            && o.scheduled && o.published && q.contact.sameSite
            && (o.inviteOnly ==> q.source != Public)
            && (q.source == Invitation ==> q.invitation == Some(q.occurrence))
            && (q.response == Going ==>
                  HasName(q.contact.name) && |q.guests| <= o.maxGuests && forall p :: p in q.guests ==> HasName(p))
            && (existing.Some? && r.registrations[existing.value].payment == Paid ==>
                  q.response == r.registrations[existing.value].response)
  {
  }

  /**
    A paid registration cannot change its response, but giving the same answer again makes it await
    payment once more.
    */
  lemma PaidAnswerAwaitsPaymentAgain(occurrences: seq<Occurrence>, r: Roster, q: Request, g: nat)
    requires q.occurrence < |occurrences| && SaveResponse(occurrences, r, q).Ok?
    requires FindRegistration(r.registrations, q.occurrence, q.contact.id) == Some(g)
    requires r.registrations[g].payment == Paid
    ensures var after := SaveResponse(occurrences, r, q).value.registrations[g];
            && after.response == r.registrations[g].response
            && after.payment == if occurrences[q.occurrence].ticketed && after.response == Going
                                then AwaitingPayment else NotRequired
  {
    ResponseAllowedExactly(occurrences, r, q);
  }

  /** A response is refused for capacity only if it really does not fit next to everyone else. */
  lemma CapacityRefusalIsExact(occurrences: seq<Occurrence>, r: Roster, q: Request)
    requires Consistent(occurrences, r) && q.occurrence < |occurrences|
    requires FormRefusal(occurrences, r, q).None? && !occurrences[q.occurrence].ticketed
    ensures WhyRefused(occurrences, r, q) == Some(CapacityExceeded) <==>
            occurrences[q.occurrence].capacity.Some?
            && SpotsTaken(Record(occurrences, r, q), q.occurrence, None) > occurrences[q.occurrence].capacity.value
  {
    SpotsAfterRecord(occurrences, r, q, q.occurrence);
  }

  // ---- The in-place operation ----

  class Desk {
    const occurrences: seq<Occurrence>
    var registrations: seq<Registration>
    var participants: seq<Participant>
    var history: seq<HistoryEntry>

    constructor (occurrences: seq<Occurrence>)
      ensures this.occurrences == occurrences && Snapshot() == EMPTY
    {
      this.occurrences := occurrences;
      registrations, participants, history := [], [], [];
    }

    function Snapshot(): Roster
      reads this
    {
      Roster(registrations, participants, history)
    }

    /** Cancels the registration's active participants and adds the new party. */
    method Reseat(target: nat, q: Request)
      modifies this`participants
      ensures participants == CancelParty(old(participants), target) + NewParty(target, q)
    {
      participants := CancelParty(participants, target);
      if q.response == Going {
        ghost var cancelled := participants;
        var primary := Participant(target, q.contact.name, true, true);
        participants := participants + [primary];
        for k := 0 to |q.guests|
          invariant participants == cancelled + [primary] + GuestRows(target, q.guests[..k])
        {
          participants := participants + [Participant(target, q.guests[k], false, true)];
          assert GuestRows(target, q.guests[..k + 1])
              == GuestRows(target, q.guests[..k]) + [Participant(target, q.guests[k], false, true)];
        }
        assert q.guests[..|q.guests|] == q.guests;
        assert cancelled + [primary] + GuestRows(target, q.guests) == cancelled + NewParty(target, q);
      }
    }

    method Respond(q: Request) returns (refusal: Option<Refusal>)
      requires q.occurrence < |occurrences|
      modifies this
      ensures refusal == match SaveResponse(occurrences, old(Snapshot()), q)
                         case Ok(_) => None
                         case Err(why) => Some(why)
      ensures refusal.Some? ==> Snapshot() == old(Snapshot())
      ensures refusal.None? ==> SaveResponse(occurrences, old(Snapshot()), q) == Ok(Snapshot())
    {
      var occurrence := occurrences[q.occurrence];
      refusal := WhyRefused(occurrences, Snapshot(), q);
      if refusal.Some? {
        return;
      }
      var existing := FindRegistration(registrations, q.occurrence, q.contact.id);
      var previous: Option<Response> := None;
      var target: nat;
      if existing.None? {
        target := |registrations|;
        registrations := registrations + [RegistrationRow(occurrence, q)];
      } else {
        target := existing.value;
        previous := Some(registrations[target].response);
        var payment := if occurrence.ticketed && q.response == Going then AwaitingPayment else NotRequired;
        registrations := registrations[target := registrations[target].(
          response := q.response, source := q.source, payment := payment)];
      }
      Reseat(target, q);
      history := history + [HistoryEntry(target, previous, q.response, |GuestsOf(q)|, q.source)];
    }
  }
}
