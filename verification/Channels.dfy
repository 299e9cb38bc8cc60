// app/channels: what the outside world answers, and the registry that reaches it.
module Channels {
  import opened Wrappers

  datatype SendResult = SendResult(success: bool, externalMessageId: Option<string>, error: Option<string>)

  // Everything a channel is handed when it is asked to send.
  datatype Call = Call(
    channel: string,
    recipient: string,
    content: string,
    messageId: string,
    priority: string,
    isFallback: bool)

  datatype Reply = Answered(result: SendResult) | Threw

  // What a caller meets when it looks a channel up and sends through it.
  datatype Link = Unregistered | Threw | Answered(result: SendResult)

  // The part of the world one operation can observe: the configured channels, their answers, the
  // clock reading and random draw made while a given message is handled, and the database's now().
  datatype Env = Env(
    registered: set<string>,
    answer: Call -> Reply,
    clock: string -> Time,
    jitter: string -> Unit,
    stamp: Time)
  {
    function LinkTo(call: Call): Link {
      if call.channel !in registered then Unregistered
      else match answer(call) case Threw => Link.Threw case Answered(r) => Link.Answered(r)
    }
  }

  class ChannelRegistry {
    const registered: set<string>
    const answer: Call -> Reply
    // The messages of all calls ever made to a channel. No rollback undoes a call.
    var sends: multiset<string>

    constructor (registered: set<string>, answer: Call -> Reply)
      ensures this.registered == registered && this.answer == answer && sends == multiset{}
    {
      this.registered, this.answer, sends := registered, answer, multiset{};
    }

    function Observed(clock: string -> Time, jitter: string -> Unit, stamp: Time): Env {
      Env(registered, answer, clock, jitter, stamp)
    }

    method Send(call: Call) returns (r: Result<SendResult>)
      requires call.channel in registered
      modifies this
      ensures sends == old(sends) + multiset{call.messageId}
      ensures r.Success? <==> answer(call).Answered?
      ensures r.Success? ==> r.value == answer(call).result
    {
      sends := sends + multiset{call.messageId};
      match answer(call) {
        case Threw => return Failure(ChannelRaised);
        case Answered(result) => return Success(result);
      }
    }
  }
}
