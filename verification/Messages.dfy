/** The rows of the messaging tables (communications/models.py, contacts/models.py); a row's id is its index in its table. */
module Messages {
  import opened Wrappers

  datatype Channel = Email | Sms

  datatype ConsentStatus = ConsentUnknown | Granted | Withdrawn | ConsentSuppressed

  datatype Contact = Contact(
    archived: bool, hasEmail: bool, hasPhone: bool, emailConsent: ConsentStatus, smsConsent: ConsentStatus)

  datatype MessageStatus =
    | Queued | Processing | Sent | Delivered | Bounced | Opened | Clicked | Unsubscribed | Suppressed | Failed

  datatype RecipientStatus =
    | RecipientExcluded | RecipientQueued | RecipientSent | RecipientDelivered | RecipientBounced
    | RecipientFailed | RecipientOpened | RecipientClicked | RecipientUnsubscribed | RecipientSuppressed

  /** When each engagement was first seen. */
  datatype Stamps = Stamps(
    sentAt: Option<nat>, deliveredAt: Option<nat>, openedAt: Option<nat>, clickedAt: Option<nat>, unsubscribedAt: Option<nat>)

  const NO_STAMPS := Stamps(None, None, None, None, None)

  /** `providerId` is set when the provider accepts the message; `updatedAt` is bumped by every save. */
  datatype Message = Message(
    channel: Channel, contact: Option<nat>, campaign: Option<nat>, recipient: Option<nat>, marketing: bool,
    status: MessageStatus, attempts: nat, availableAt: nat, updatedAt: nat, providerId: Option<nat>,
    segments: nat, allowance: Option<nat>, stamps: Stamps)

  datatype Recipient = Recipient(
    campaign: nat, contact: nat, status: RecipientStatus, segments: nat, stamps: Stamps, lastEventAt: Option<nat>)

  /** What is fixed when a message is written: whom it is for, and what pays for it. */
  predicate SameOrigin(m: Message, n: Message) {
    && n.channel == m.channel && n.contact == m.contact && n.campaign == m.campaign && n.recipient == m.recipient
    && n.marketing == m.marketing && n.segments == m.segments && n.allowance == m.allowance
  }

  const MAX_ATTEMPTS: nat := 5

  predicate Terminal(status: MessageStatus) {
    status != Queued && status != Processing && status != Failed
  }

  function ConsentFor(c: Contact, channel: Channel): ConsentStatus {
    if channel == Email then c.emailConsent else c.smsConsent
  }

  function WithConsent(c: Contact, channel: Channel, status: ConsentStatus): Contact {
    if channel == Email then c.(emailConsent := status) else c.(smsConsent := status)
  }

  /** `_record_consent`: a suppressed channel stays suppressed. */
  function RecordConsent(current: ConsentStatus, status: ConsentStatus): ConsentStatus {
    if current == ConsentSuppressed && status != ConsentSuppressed then current else status
  }
}
