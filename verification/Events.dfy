// app/workers/events.py: the audit events, one constructor for each payload shape that is recorded.
module Events {
  import opened Wrappers
  import opened MessageStates
  import opened Channels

  datatype Event =
    | QueuedEvent
    | SendingEvent(channel: string)
    | SendAttempt(channel: string, result: SendResult)
    | SendSuccess(channel: string, externalMessageId: Option<string>)
    // With a channel the primary send failed and a fallback follows; without one the message has failed.
    | SendFailed(failedChannel: Option<string>, error: Option<string>)
    // `late` is the state a late acknowledgement found.
    | AckReceived(acknowledgedAt: Time, late: Option<State>)
    | EscalationTriggered(reason: string, fallbackChannels: seq<string>)
    | EscalationDeferredEvent(channel: string, retryCount: nat, nextRetryAt: Time, lastError: string)
    // Recorded twice for one attempt: before the channel is looked up, and after it has answered.
    | FallbackAttempt(channel: string, outcome: Option<SendResult>)
    | FallbackSuccess(channel: string)
    | DeadLetterEvent(reason: string)
}
