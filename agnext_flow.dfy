/**
 The agents of the marketing-campaign group chat as objects whose fields the
 handlers update in place: the coordinator (`MarketingManagerAgent`) and the
 five role agents, which all follow one pattern and are modelled by one class.
 */
module AgnextFlow {
  import opened Wrappers
  import opened Marketing

  /** The messages a role agent keeps for its model client. */
  datatype LlmMessage =
    | SystemMessage(content: string)
    | Received(body: UserMessage)
    | AssistantMessage(content: string, source: string)

  /** The turns an agent itself produced, in order, as the messages it published for them. */
  function SpokenTurns(history: seq<LlmMessage>): seq<UserMessage>
    decreases |history|
  {
    if history == [] then []
    else
      var last := history[|history| - 1];
      var earlier := SpokenTurns(history[..|history| - 1]);
      if last.AssistantMessage? then earlier + [UserMessage(last.content, last.source)] else earlier
  }

  /** The spoken turns of a joined history are those of each part, in order. */
  lemma {:induction false} SpokenTurnsAppend(a: seq<LlmMessage>, b: seq<LlmMessage>)
    ensures SpokenTurns(a + b) == SpokenTurns(a) + SpokenTurns(b)
    decreases |b|
  {
    if b == [] {
      assert a + b == a;
    } else {
      var front := b[..|b| - 1];
      assert (a + b)[..|a + b| - 1] == a + front;
      assert (a + b)[|a + b| - 1] == b[|b| - 1];
      SpokenTurnsAppend(a, front);
      var tail := if b[|b| - 1].AssistantMessage? then [UserMessage(b[|b| - 1].content, b[|b| - 1].source)] else [];
      assert SpokenTurns(b) == SpokenTurns(front) + tail;
      assert SpokenTurns(a + b) == (SpokenTurns(a) + SpokenTurns(front)) + tail;
    }
  }

  /**
   One role agent (the product-information provider, the three writers, the
   editor): it keeps every message it receives and, when asked to speak, adds
   the model's completion to its history under its own name and publishes it.
   */
  class RoleAgent {
    const role: Source
    const name: string
    const instructions: string
    var chatHistory: seq<LlmMessage>
    var published: seq<UserMessage>

    /** The history starts with the instructions, and what was published is exactly what the agent said. */
    ghost predicate Valid()
      reads this
    {
      && |chatHistory| > 0
      && chatHistory[0] == SystemMessage(instructions)
      && SpokenTurns(chatHistory) == published
      && !role.Other? && !role.User? && name == SourceName(role)
      && forall i :: 0 <= i < |published| ==> SourceOf(published[i].source) == role
    }

    /** An agent playing `role`; the user is not an agent of the chat. */
    constructor (role: Source, instructions: string)
      requires !role.Other? && !role.User?
      ensures Valid()
      ensures this.role == role && name == SourceName(role) && this.instructions == instructions
      ensures chatHistory == [SystemMessage(instructions)] && published == []
    {
      this.role := role;
      this.name := SourceName(role);
      this.instructions := instructions;
      chatHistory := [SystemMessage(instructions)];
      published := [];
      assert SpokenTurns([SystemMessage(instructions)]) == [];
    }

    /** `handle_message`: keep the received message, publish nothing. */
    method HandleMessage(body: UserMessage)
      requires Valid()
      modifies this
      ensures Valid()
      ensures chatHistory == old(chatHistory) + [Received(body)]
      ensures published == old(published)
    {
      SpokenTurnsAppend(chatHistory, [Received(body)]);
      chatHistory := chatHistory + [Received(body)];
    }

    /**
     `handle_request_to_speak`: the model client's completion of the history
     so far (`complete`, outside the model) is added as the agent's own
     message and published under the agent's name.
     */
    method HandleRequestToSpeak(complete: seq<LlmMessage> -> string)
      requires Valid()
      modifies this
      ensures Valid()
      ensures chatHistory == old(chatHistory) + [AssistantMessage(complete(old(chatHistory)), name)]
      ensures published == old(published) + [UserMessage(complete(old(chatHistory)), name)]
    {
      var completion := complete(chatHistory);
      SourceNameRoundTrip(role);
      SpokenTurnsAppend(chatHistory, [AssistantMessage(completion, name)]);
      chatHistory := chatHistory + [AssistantMessage(completion, name)];
      published := published + [UserMessage(completion, name)];
    }
  }

  /**
   The coordinator. Its four fields are those of `Marketing.Session`; the
   output queue receives every handled message and `outbox` records the
   direct sends in the order they are made.
   */
  class MarketingManager {
    const productInfoProvider: AgentId
    const writers: seq<AgentId>
    const editor: AgentId
    var currentWriterIndex: nat
    var approvedDrafts: nat
    var productInfo: Option<string>
    var chatHistory: seq<UserMessage>
    var outputQueue: seq<UserMessage>
    var outbox: seq<Send>

    function Roster(): Roster
    {
      Marketing.Roster(productInfoProvider, writers, editor)
    }

    function State(): Session
      reads this
    {
      Session(currentWriterIndex, approvedDrafts, productInfo, chatHistory)
    }

    ghost predicate Valid()
      reads this
    {
      Inv(Roster(), State()) && outputQueue == chatHistory
    }

    constructor (productInfoProvider: AgentId, writers: seq<AgentId>, editor: AgentId)
      ensures Valid()
      ensures Roster() == Marketing.Roster(productInfoProvider, writers, editor)
      ensures State() == Initial()
      ensures outputQueue == [] && outbox == []
    {
      this.productInfoProvider := productInfoProvider;
      this.writers := writers;
      this.editor := editor;
      currentWriterIndex := 0;
      chatHistory := [];
      productInfo := None;
      approvedDrafts := 0;
      outputQueue := [];
      outbox := [];
    }

    /** `handle_message`: log and enqueue the message, then route it as `Marketing.Receive` does. */
    method HandleMessage(message: UserMessage) returns (status: Status)
      requires Valid()
      modifies this
      ensures Valid()
      ensures State() == Receive(Roster(), old(State()), message).next
      ensures outputQueue == old(outputQueue) + [message]
      ensures outbox == old(outbox) + Receive(Roster(), old(State()), message).sends
      ensures status == Receive(Roster(), old(State()), message).status
    {
      chatHistory := chatHistory + [message];
      outputQueue := outputQueue + [message];
      status := Completed;
      match SourceOf(message.source)
      case ProductInformationProvider =>
        productInfo := Some(message.content);
        for i := 0 to |writers|
          modifies this`outbox
          invariant outbox == old(outbox) + FanOut(writers[..i], message.content)
        {
          assert writers[..i + 1][..i] == writers[..i];
          outbox := outbox + [Send(GroupChat(UserMessage(message.content, ManagerName)), writers[i])];
        }
        assert writers[..|writers|] == writers;
        if currentWriterIndex < |writers| {
          outbox := outbox + [Send(RequestToSpeak, writers[currentWriterIndex])];
        } else {
          status := IndexError;
        }
      case EmailWriter | FacebookPostWriter | TwitterPostWriter =>
        outbox := outbox + [Send(GroupChat(message), editor)];
        outbox := outbox + [Send(RequestToSpeak, editor)];
      case Editor =>
        if IsApproval(message.content) {
          approvedDrafts := approvedDrafts + 1;
          if approvedDrafts < |writers| {
            currentWriterIndex := currentWriterIndex + 1;
            if currentWriterIndex < |writers| {
              outbox := outbox + [Send(RequestToSpeak, writers[currentWriterIndex])];
            } else {
              status := IndexError;
            }
          }
        } else if currentWriterIndex < |writers| {
          var writer := writers[currentWriterIndex];
          outbox := outbox + [Send(GroupChat(message), writer)];
          outbox := outbox + [Send(RequestToSpeak, writer)];
        } else {
          status := IndexError;
        }
      case User =>
        outbox := outbox + [Send(RequestToSpeak, productInfoProvider)];
      case Other =>
    }

    /** `handle_request_to_speak`: one turn request, as `Marketing.SpeakRequested` decides; no field changes. */
    method HandleRequestToSpeak() returns (status: Status)
      requires Valid()
      modifies this`outbox
      ensures Valid()
      ensures outbox == old(outbox) + SpeakRequested(Roster(), State()).sends
      ensures status == SpeakRequested(Roster(), State()).status
    {
      if productInfo.None? {
        outbox := outbox + [Send(RequestToSpeak, productInfoProvider)];
        status := Completed;
      } else if currentWriterIndex < |writers| {
        outbox := outbox + [Send(RequestToSpeak, writers[currentWriterIndex])];
        status := Completed;
      } else {
        status := IndexError;
      }
    }
  }
}
