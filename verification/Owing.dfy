/** The segments of a campaign's messages that are still to be delivered. */
module Owing {
  import opened Wrappers
  import opened Sums
  import opened Messages

  /** The message has not been accepted and may still be delivered. */
  predicate Owes(m: Message) {
    m.providerId.None? && !Terminal(m.status) && (m.status == Processing || m.attempts < MAX_ATTEMPTS)
  }

  function OwedOf(messages: seq<Message>, c: nat): nat -> int {
    (m: nat) => if m < |messages| && messages[m].campaign == Some(c) && Owes(messages[m]) then messages[m].segments else 0
  }

  function Owed(messages: seq<Message>, c: nat): int {
    Sum(OwedOf(messages, c), |messages|)
  }

  lemma OwedAppend(messages: seq<Message>, row: Message, c: nat)
    ensures Owed(messages + [row], c)
            == Owed(messages, c) + if row.campaign == Some(c) && Owes(row) then row.segments else 0
  {
    SumEqual(OwedOf(messages, c), OwedOf(messages + [row], c), |messages|);
  }
}
