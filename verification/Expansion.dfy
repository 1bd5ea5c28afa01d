/**
  Expanding a campaign over its audience (communications/campaigns.py): one recipient for each contact,
  one message for each eligible one, and the same totals as the preview that was confirmed.
  */
module Expansion {
  import opened Wrappers
  import opened Segments
  import opened Messages
  import opened Messaging
  import opened Delivery
  import opened Owing

  // ---- The audience ----

  predicate Increasing(ids: seq<nat>) {
    forall j, k :: 0 <= j < k < |ids| ==> ids[j] < ids[k]
  }

  lemma {:induction false} AudienceIsOrdered(contacts: seq<Messages.Contact>, audience: set<nat>, n: nat)
    requires n <= |contacts|
    ensures Increasing(AudienceIds(contacts, audience, n))
    ensures forall i: nat :: i in AudienceIds(contacts, audience, n) <==> i < n && i in audience && !contacts[i].archived
  {
    if n != 0 {
      AudienceIsOrdered(contacts, audience, n - 1);
      var ids := AudienceIds(contacts, audience, n - 1);
      assert forall k :: 0 <= k < |ids| ==> ids[k] in ids;
    }
  }

  // ---- Expansion of a campaign nobody has been made a recipient of ----

  ghost predicate NoRecipientsYet(s: State, c: nat) {
    forall r :: 0 <= r < |s.recipients| ==> s.recipients[r].campaign != c
  }

  /** Rows keep whose they are, and new ones are the campaign's, for one of the contacts. */
  ghost predicate RecipientsGrow(rows: seq<Recipient>, more: seq<Recipient>, c: nat, contacts: seq<nat>) {
    && |rows| <= |more|
    && (forall r :: 0 <= r < |rows| ==> more[r].campaign == rows[r].campaign && more[r].contact == rows[r].contact)
    && (forall r :: |rows| <= r < |more| ==> more[r].campaign == c && more[r].contact in contacts)
  }

  lemma ExpandOneRecipients(s: State, c: nat, contact: nat, token: Token, tally: Tally)
    requires c < |s.campaigns|
    ensures RecipientsGrow(s.recipients, ExpandOne(s, c, contact, token, tally).0.recipients, c, [contact])
  {
  }

  /** Recipients made so far are contacts of the audience already gone through. */
  lemma {:induction false} ExpandAllRecipients(s: State, c: nat, ids: seq<nat>, tokens: seq<Token>)
    requires c < |s.campaigns|
    ensures RecipientsGrow(s.recipients, ExpandAll(s, c, ids, tokens).0.recipients, c, ids)
  {
    if ids != [] {
      var n := |ids| - 1;
      ExpandAllRecipients(s, c, ids[..n], tokens);
      var (t, tally) := ExpandAll(s, c, ids[..n], tokens);
      ExpandOneRecipients(t, c, ids[n], TokenFor(tokens, n), tally);
      GrowTwice(s.recipients, t.recipients, ExpandAll(s, c, ids, tokens).0.recipients, c, ids);
    }
  }

  lemma GrowTwice(rows: seq<Recipient>, more: seq<Recipient>, most: seq<Recipient>, c: nat, ids: seq<nat>)
    requires ids != [] && RecipientsGrow(rows, more, c, ids[..|ids| - 1])
    requires RecipientsGrow(more, most, c, [ids[|ids| - 1]])
    ensures RecipientsGrow(rows, most, c, ids)
  {
  }

  lemma NextContactIsNew(s: State, c: nat, ids: seq<nat>, tokens: seq<Token>)
    requires c < |s.campaigns| && ids != [] && Increasing(ids) && NoRecipientsYet(s, c)
    ensures FindRecipient(ExpandAll(s, c, ids[..|ids| - 1], tokens).0.recipients, c, ids[|ids| - 1]).None?
  {
    var n := |ids| - 1;
    ExpandAllRecipients(s, c, ids[..n], tokens);
    var rows := ExpandAll(s, c, ids[..n], tokens).0.recipients;
    forall r | 0 <= r < |rows|
      ensures !(rows[r].campaign == c && rows[r].contact == ids[n])
    {
      if r >= |s.recipients| {
        var k :| 0 <= k < n && ids[..n][k] == rows[r].contact;
        assert ids[k] < ids[n];
      }
    }
  }

  /** The segments of the messages queued for the first contacts of the audience. */
  function QueuedSegments(s: State, c: nat, ids: seq<nat>, tokens: seq<Token>): nat
    requires c < |s.campaigns|
  {
    if ids == [] then 0
    else
      var n := |ids| - 1;
      QueuedSegments(s, c, ids[..n], tokens)
      + if Eligible(s.contacts, s.campaigns[c].channel, ids[n])
        then MessageSegments(s.site, s.campaigns[c], TokenFor(tokens, n)) else 0
  }

  /** Every contact is counted once, the eligible ones are queued, and exactly their segments become owed. */
  lemma {:induction false} ExpandAllTally(s: State, c: nat, ids: seq<nat>, tokens: seq<Token>)
    requires c < |s.campaigns| && Increasing(ids) && NoRecipientsYet(s, c)
    requires forall k :: 0 <= k < |ids| ==> ids[k] < |s.contacts|
    ensures var (t, tally) := ExpandAll(s, c, ids, tokens);
            && tally.total == |ids|
            && tally.queued == CountEligible(s.contacts, s.campaigns[c].channel, ids)
            && tally.segments == QueuedSegments(s, c, ids, tokens)
            && |t.messages| == |s.messages| + tally.queued
            && Owed(t.messages, c) == Owed(s.messages, c) + tally.segments
            && forall d: nat :: d != c ==> Owed(t.messages, d) == Owed(s.messages, d)
  {
    if ids != [] {
      var n := |ids| - 1;
      ExpandAllTally(s, c, ids[..n], tokens);
      NextContactIsNew(s, c, ids, tokens);
      ExpandAllAppends(s, c, ids[..n], tokens);
      var (t, tally) := ExpandAll(s, c, ids[..n], tokens);
      ExpandOneNew(t, c, ids[n], TokenFor(tokens, n), tally);
    }
  }

  /** A contact that is not a recipient yet. */
  lemma ExpandOneNew(s: State, c: nat, contact: nat, token: Token, tally: Tally)
    requires c < |s.campaigns| && contact < |s.contacts| && FindRecipient(s.recipients, c, contact).None?
    ensures var (t, after) := ExpandOne(s, c, contact, token, tally);
            var eligible := Eligible(s.contacts, s.campaigns[c].channel, contact);
            var segments := if eligible then MessageSegments(s.site, s.campaigns[c], token) else 0;
            && after == Tally(tally.total + 1, tally.queued + (if eligible then 1 else 0), tally.segments + segments)
            && |t.messages| == |s.messages| + (if eligible then 1 else 0)
            && Owed(t.messages, c) == Owed(s.messages, c) + segments
            && forall d: nat :: d != c ==> Owed(t.messages, d) == Owed(s.messages, d)
  {
    var segments := MessageSegments(s.site, s.campaigns[c], token);
    var row := CampaignMessage(s, c, contact, |s.recipients|, segments);
    forall d: nat
      ensures Owed(s.messages + [row], d) == Owed(s.messages, d) + if d == c then segments else 0
    {
      OwedAppend(s.messages, row, d);
    }
  }

  // ---- Preview and expansion agree ----

  lemma {:induction false} SegmentsAgree(s: State, c: nat, ids: seq<nat>, tokens: seq<Token>)
    requires c < |s.campaigns| && AllBasic(s.site.hostname)
    ensures QueuedSegments(s, c, ids, tokens)
            == Times(CountEligible(s.contacts, s.campaigns[c].channel, ids), SegmentsPerMessage(s.site, s.campaigns[c]))
  {
    if ids != [] {
      var n := |ids| - 1;
      SegmentsAgree(s, c, ids[..n], tokens);
      EstimateIsExact(s.campaigns[c].body, s.site.hostname, TokenFor(tokens, n));
      var per := SegmentsPerMessage(s.site, s.campaigns[c]);
      assert MessageSegments(s.site, s.campaigns[c], TokenFor(tokens, n)) == per;
      Distributes(CountEligible(s.contacts, s.campaigns[c].channel, ids[..n]), per);
    }
  }

  lemma Distributes(n: nat, per: nat)
    ensures Times(n + 1, per) == Times(n, per) + per
  {
  }

  /** Expanding is what the preview said, contact for contact and segment for segment. */
  lemma PreviewMatchesExpansion(s: State, c: nat, audience: set<nat>, tokens: seq<Token>)
    requires c < |s.campaigns| && s.campaigns[c].status == Scheduled && NoRecipientsYet(s, c)
    requires s.campaigns[c].scheduledFor.Some? ==> s.campaigns[c].scheduledFor.value <= s.now
    requires !SenderProblem(s.site, s.campaigns[c].channel) && AllBasic(s.site.hostname)
    ensures var t, preview := Expand(s, c, audience, tokens), CampaignPreview(s, c, audience);
            && t.campaigns[c].recipientCount == preview.candidates
            && t.campaigns[c].eligibleCount == preview.eligible
            && t.campaigns[c].excludedCount == preview.excluded
            && t.campaigns[c].estimatedSegments == preview.segments
            && |t.messages| == |s.messages| + preview.eligible
            && Owed(t.messages, c) == Owed(s.messages, c) + preview.segments
  {
    var ids := AudienceIds(s.contacts, audience, |s.contacts|);
    AudienceIsOrdered(s.contacts, audience, |s.contacts|);
    assert forall k :: 0 <= k < |ids| ==> ids[k] in ids;
    ExpandAllTally(s, c, ids, tokens);
    ExpandAllAppends(s, c, ids, tokens);
    SegmentsAgree(s, c, ids, tokens);
  }

  /** The preview reads nothing but the contacts, the campaign's text and channel, and the host name. */
  lemma PreviewDependsOnlyOn(s: State, t: State, c: nat, audience: set<nat>)
    requires c < |s.campaigns| && c < |t.campaigns| && t.contacts == s.contacts && t.site == s.site
    requires t.campaigns[c].body == s.campaigns[c].body && t.campaigns[c].channel == s.campaigns[c].channel
    ensures CampaignPreview(t, c, audience) == CampaignPreview(s, c, audience)
  {
  }

  /**
    From launch to expansion: if the contacts and the text are as they were and no test send has used
    the reservation, nothing is released and the reservation is exactly what the new messages owe.
    */
  lemma ReservationMatchesMessages(before: State, s: State, c: nat, audience: set<nat>, tokens: seq<Token>)
    requires c < |before.campaigns| && LaunchRefusal(before, c, audience, true, true).None?
    requires c < |before.sms.accounts| && before.period < |before.sms.allowances|
    requires c < |s.campaigns| && s.contacts == before.contacts && s.site == before.site
    requires s.campaigns[c] == Launched(before, c, audience).campaigns[c] && s.campaigns[c].channel == Sms
    requires c < |s.sms.accounts| && s.sms.accounts[c] == Launched(before, c, audience).sms.accounts[c]
    requires s.campaigns[c].scheduledFor.value <= s.now && NoRecipientsYet(s, c)
    requires AllBasic(s.site.hostname)
    ensures var t := Expand(s, c, audience, tokens);
            && t.sms == s.sms
            && Owed(t.messages, c) == Owed(s.messages, c) + t.sms.accounts[c].reserved
            && t.campaigns[c].estimatedSegments == t.sms.accounts[c].reserved
  {
    PreviewDependsOnlyOn(before, s, c, audience);
    PreviewMatchesExpansion(s, c, audience, tokens);
    var ids := AudienceIds(s.contacts, audience, |s.contacts|);
    ExpandAllAppends(s, c, ids, tokens);
  }

  // ---- The loops ----

  function CountReason(contacts: seq<Messages.Contact>, channel: Channel, ids: seq<nat>, reason: Reason): nat {
    if ids == [] then 0
    else CountReason(contacts, channel, ids[..|ids| - 1], reason)
         + if ids[|ids| - 1] < |contacts| && ContactEligibility(contacts[ids[|ids| - 1]], channel) == Some(reason)
           then 1 else 0
  }

  function ReasonCount(reasons: map<Reason, nat>, reason: Reason): nat {
    if reason in reasons then reasons[reason] else 0
  }

  /** One pass over the audience: totals, and how many were left out for each reason. */
  method PreviewCampaign(s: State, c: nat, audience: set<nat>)
    returns (preview: Preview, reasons: map<Reason, nat>)
    requires c < |s.campaigns|
    ensures preview == CampaignPreview(s, c, audience)
    ensures forall reason :: ReasonCount(reasons, reason)
                          == CountReason(s.contacts, s.campaigns[c].channel,
                                         AudienceIds(s.contacts, audience, |s.contacts|), reason)
  {
    var campaign := s.campaigns[c];
    var perMessage := 0;
    if campaign.channel == Sms {
      perMessage := CountSegments(BodyForEstimate(campaign.body, s.site.hostname));
    }
    var ids := AudienceIds(s.contacts, audience, |s.contacts|);
    AudienceIsOrdered(s.contacts, audience, |s.contacts|);
    assert forall k :: 0 <= k < |ids| ==> ids[k] in ids;
    var candidates, eligible, segments := 0, 0, 0;
    candidates, eligible, segments, reasons := CountAudience(s.contacts, campaign.channel, ids, perMessage);
    preview := Preview(candidates, eligible, candidates - eligible, segments);
  }

  method CountAudience(contacts: seq<Messages.Contact>, channel: Channel, ids: seq<nat>, perMessage: nat)
    returns (candidates: nat, eligible: nat, segments: nat, reasons: map<Reason, nat>)
    requires forall k :: 0 <= k < |ids| ==> ids[k] < |contacts|
    ensures candidates == |ids| && eligible == CountEligible(contacts, channel, ids) <= |ids|
    ensures segments == Times(eligible, perMessage)
    ensures forall reason :: ReasonCount(reasons, reason) == CountReason(contacts, channel, ids, reason)
  {
    candidates, eligible, segments, reasons := 0, 0, 0, map[];
    for k := 0 to |ids|
      invariant candidates == k && eligible == CountEligible(contacts, channel, ids[..k]) <= k
      invariant segments == Times(eligible, perMessage)
      invariant forall reason :: ReasonCount(reasons, reason) == CountReason(contacts, channel, ids[..k], reason)
    {
      assert ids[..k + 1][..k] == ids[..k];
      candidates := candidates + 1;
      var reason := ContactEligibility(contacts[ids[k]], channel);
      if reason.None? {
        Distributes(eligible, perMessage);
        eligible := eligible + 1;
        segments := segments + perMessage;
      } else {
        reasons := reasons[reason.value := ReasonCount(reasons, reason.value) + 1];
      }
    }
    assert ids[..|ids|] == ids;
  }
}
