// app/domain/message.py: message policies and message records.
// A Row is the value a record has at one moment; it is also one line of the messages table.
module Messages {
  import opened Wrappers
  import opened MessageStates

  datatype Policy = Policy(
    primaryChannel: string,
    acknowledgementCondition: string,
    acknowledgementDeadlineSeconds: int,
    fallbackChannels: seq<string>,
    priority: string)

  datatype Row = Row(
    id: string,
    sender: string,
    recipient: string,
    content: string,
    policy: Policy,
    key: Option<string>,
    createdAt: Time,
    state: State,
    updatedAt: Time,
    sentAt: Option<Time>,
    acknowledgedAt: Option<Time>,
    escalatedAt: Option<Time>,
    ackDeadlineAt: Option<Time>,
    externalMessageId: Option<string>,
    retryCount: nat,
    lastError: Option<string>,
    nextRetryAt: Option<Time>)

  function DeadlineAfter(policy: Policy, now: Time): Time {
    now + policy.acknowledgementDeadlineSeconds as real
  }

  // The fields that no operation of the system assigns are constants.
  class MessageRecord {
    const id: string
    const sender: string
    const recipient: string
    const content: string
    const policy: Policy
    const key: Option<string>
    const createdAt: Time
    var state: State
    var updatedAt: Time
    var sentAt: Option<Time>
    var acknowledgedAt: Option<Time>
    var escalatedAt: Option<Time>
    var ackDeadlineAt: Option<Time>
    var externalMessageId: Option<string>
    var retryCount: nat
    var lastError: Option<string>
    var nextRetryAt: Option<Time>

    function AsRow(): Row
      reads this
    {
      Row(id, sender, recipient, content, policy, key, createdAt, state, updatedAt, sentAt, acknowledgedAt,
          escalatedAt, ackDeadlineAt, externalMessageId, retryCount, lastError, nextRetryAt)
    }

    constructor (row: Row)
      ensures AsRow() == row
    {
      id, sender, recipient, content := row.id, row.sender, row.recipient, row.content;
      policy, key, createdAt := row.policy, row.key, row.createdAt;
      state, updatedAt, sentAt := row.state, row.updatedAt, row.sentAt;
      acknowledgedAt, escalatedAt, ackDeadlineAt := row.acknowledgedAt, row.escalatedAt, row.ackDeadlineAt;
      externalMessageId, retryCount := row.externalMessageId, row.retryCount;
      lastError, nextRetryAt := row.lastError, row.nextRetryAt;
    }

    method ArmDeadline(now: Time)
      modifies this`ackDeadlineAt
      ensures AsRow() ==
              old(AsRow()).(ackDeadlineAt := Some(now + policy.acknowledgementDeadlineSeconds as real))
    {
      ackDeadlineAt := Some(now + policy.acknowledgementDeadlineSeconds as real);
    }
  }
}
