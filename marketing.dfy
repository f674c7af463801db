/**
 The turn coordinator of the marketing-campaign group chat (the
 `MarketingManagerAgent` of class_flows/flows/chat_basic/agnext_flow.py),
 stated as pure transition functions over the coordinator's session state.
 The class `AgnextFlow.MarketingManager` is proved to follow these functions;
 the lemmas here state what the coordinator promises.
 */
module Marketing {
  import opened Wrappers
  import Text

  /** An agent address of the runtime: the registered agent type and its key. */
  datatype AgentId = AgentId(agentType: string, key: string)

  /** The body of every group-chat message exchanged here: text and its author. */
  datatype UserMessage = UserMessage(content: string, source: string)

  /** What a send carries: a group-chat message, or the request to take a turn. */
  datatype Payload = GroupChat(body: UserMessage) | RequestToSpeak

  /** One direct `send_message` call of the coordinator. */
  datatype Send = Send(payload: Payload, recipient: AgentId)

  /** The author names the coordinator tells apart; any other name is `Other`. */
  datatype Source =
    | User
    | ProductInformationProvider
    | EmailWriter
    | FacebookPostWriter
    | TwitterPostWriter
    | Editor
    | Other

  /** The name an author puts in the `source` field of its messages. */
  function SourceName(s: Source): string
    requires !s.Other?
  {
    match s
    case User => "User"
    case ProductInformationProvider => "ProductInformationProvider"
    case EmailWriter => "EmailWriter"
    case FacebookPostWriter => "FacebookPostWriter"
    case TwitterPostWriter => "TwitterPostWriter"
    case Editor => "Editor"
  }

  /** The coordinator's string comparisons on a message's `source` field. */
  function SourceOf(name: string): (s: Source)
    ensures !s.Other? ==> SourceName(s) == name
    ensures s.Other? ==> forall k: Source :: !k.Other? ==> SourceName(k) != name
  {
    if name == "ProductInformationProvider" then ProductInformationProvider
    else if name == "EmailWriter" then EmailWriter
    else if name == "FacebookPostWriter" then FacebookPostWriter
    else if name == "TwitterPostWriter" then TwitterPostWriter
    else if name == "Editor" then Editor
    else if name == "User" then User
    else Other
  }

  /** Classifying a known author's name gives back that author. */
  lemma SourceNameRoundTrip(s: Source)
    requires !s.Other?
    ensures SourceOf(SourceName(s)) == s
  {
  }

  /** The three draft writers, recognised by name whatever the writer list holds. */
  predicate IsWriter(s: Source)
  {
    s.EmailWriter? || s.FacebookPostWriter? || s.TwitterPostWriter?
  }

  /** The name under which the coordinator relays product information. */
  const ManagerName: string := "MarketingManager"

  /**
   The editor's verdict counts as approval when its upper-cased text contains
   "APPROVE" anywhere, so "DISAPPROVE" and "not approve" count too.
   */
  predicate IsApproval(content: string)
  {
    Text.Contains(Text.Upper(content), "APPROVE")
  }

  /** The verdict has the seven letters of "APPROVE", in any case, starting at position `i`. */
  predicate ApprovalAt(content: string, i: int)
  {
    0 <= i && i + 7 <= |content|
    && forall j :: 0 <= j < 7 ==> Text.UpperChar(content[i + j]) == "APPROVE"[j]
  }

  /** Approval is decided letter by letter, ignoring case, at any position of the verdict. */
  lemma ApprovalIgnoresCase(content: string)
    ensures IsApproval(content) <==> exists i :: ApprovalAt(content, i)
  {
    var u := Text.Upper(content);
    Text.ContainsIff(u, "APPROVE");
    forall i ensures Text.OccursAt(u, "APPROVE", i) <==> ApprovalAt(content, i) {
      if 0 <= i && i + 7 <= |u| {
        if ApprovalAt(content, i) {
          assert u[i..i + 7] == "APPROVE" by {
            forall j | 0 <= j < 7 ensures u[i..i + 7][j] == "APPROVE"[j] {
              assert u[i + j] == Text.UpperChar(content[i + j]);
            }
          }
        }
        if Text.OccursAt(u, "APPROVE", i) {
          forall j | 0 <= j < 7 ensures Text.UpperChar(content[i + j]) == "APPROVE"[j] {
            assert u[i..i + 7][j] == u[i + j];
          }
        }
      }
    }
  }

  /** The agents the coordinator is wired to; fixed for the whole session. */
  datatype Roster = Roster(productInfoProvider: AgentId, writers: seq<AgentId>, editor: AgentId)

  /** The coordinator's own state: its four fields. */
  datatype Session = Session(
    writerIndex: nat,
    approvedDrafts: nat,
    productInfo: Option<string>,
    history: seq<UserMessage>)

  /** Whether a handler ran to its end or raised `IndexError` on `writers[...]`. */
  datatype Status = Completed | IndexError

  /** What one handler call does: the new state and the sends, in order. */
  datatype Transition = Transition(next: Session, sends: seq<Send>, status: Status)

  /** The state right after construction. */
  function Initial(): (s: Session)
    ensures s.history == [] && s.productInfo.None?
  {
    Session(0, 0, None, [])
  }

  /** The writer index the approval count determines: one writer per approval, stopping at the last. */
  function ExpectedIndex(approved: nat, writerCount: nat): (i: nat)
    ensures writerCount > 0 ==> i < writerCount
    ensures approved < writerCount ==> i == approved
  {
    if approved < writerCount then approved
    else if writerCount == 0 then 0
    else writerCount - 1
  }

  /** The coordinator's invariant: the writer index follows the approval count. */
  predicate Inv(r: Roster, s: Session)
  {
    s.writerIndex == ExpectedIndex(s.approvedDrafts, |r.writers|)
  }

  /** The relay of product information to each writer, in list order. */
  function FanOut(writers: seq<AgentId>, info: string): (sends: seq<Send>)
    ensures |sends| == |writers|
    ensures forall i :: 0 <= i < |writers| ==>
      sends[i] == Send(GroupChat(UserMessage(info, ManagerName)), writers[i])
  {
    if writers == [] then
      []
    else
      var last := Send(GroupChat(UserMessage(info, ManagerName)), writers[|writers| - 1]);
      FanOut(writers[..|writers| - 1], info) + [last]
  }

  /** `handle_message`: log the message, then route it by its author. */
  function Receive(r: Roster, s: Session, m: UserMessage): (t: Transition)
    ensures t.next.history == s.history + [m]
    ensures s.approvedDrafts <= t.next.approvedDrafts <= s.approvedDrafts + 1
    ensures s.writerIndex <= t.next.writerIndex <= s.writerIndex + 1
    ensures t.next.productInfo == s.productInfo || t.next.productInfo == Some(m.content)
    ensures t.status.IndexError? ==> |r.writers| <= t.next.writerIndex
    ensures Inv(r, s) ==> Inv(r, t.next)
  {
    var logged := s.(history := s.history + [m]);
    match SourceOf(m.source)
    case ProductInformationProvider =>
      var informed := logged.(productInfo := Some(m.content));
      var relay := FanOut(r.writers, m.content);
      if s.writerIndex < |r.writers| then
        Transition(informed, relay + [Send(RequestToSpeak, r.writers[s.writerIndex])], Completed)
      else
        Transition(informed, relay, IndexError)
    case EmailWriter | FacebookPostWriter | TwitterPostWriter =>
      Transition(logged, [Send(GroupChat(m), r.editor), Send(RequestToSpeak, r.editor)], Completed)
    case Editor =>
      if IsApproval(m.content) then
        var approved := s.approvedDrafts + 1;
        if approved < |r.writers| then
          var next := s.writerIndex + 1;
          var advanced := logged.(approvedDrafts := approved, writerIndex := next);
          if next < |r.writers| then
            Transition(advanced, [Send(RequestToSpeak, r.writers[next])], Completed)
          else
            Transition(advanced, [], IndexError)
        else
          Transition(logged.(approvedDrafts := approved), [], Completed)
      else if s.writerIndex < |r.writers| then
        var writer := r.writers[s.writerIndex];
        Transition(logged, [Send(GroupChat(m), writer), Send(RequestToSpeak, writer)], Completed)
      else
        Transition(logged, [], IndexError)
    case User =>
      Transition(logged, [Send(RequestToSpeak, r.productInfoProvider)], Completed)
    case Other =>
      Transition(logged, [], Completed)
  }

  /** `handle_request_to_speak`: ask for product information first, then for the current writer. */
  function SpeakRequested(r: Roster, s: Session): (t: Transition)
    ensures t.next == s
    ensures |t.sends| <= 1
    ensures t.status.IndexError? <==> t.sends == []
    ensures forall i :: 0 <= i < |t.sends| ==> t.sends[i].payload.RequestToSpeak?
    ensures s.productInfo.None? ==> t.sends == [Send(RequestToSpeak, r.productInfoProvider)]
  {
    if s.productInfo.None? then
      Transition(s, [Send(RequestToSpeak, r.productInfoProvider)], Completed)
    else if s.writerIndex < |r.writers| then
      Transition(s, [Send(RequestToSpeak, r.writers[s.writerIndex])], Completed)
    else
      Transition(s, [], IndexError)
  }

  /** Every handled message is logged once, at the end of the history, whatever its author. */
  lemma ReceiveLogsOnce(r: Roster, s: Session, m: UserMessage)
    ensures |Receive(r, s, m).next.history| == |s.history| + 1
    ensures Receive(r, s, m).next.history[..|s.history|] == s.history
    ensures Receive(r, s, m).next.history[|s.history|] == m
  {
    assert (s.history + [m])[..|s.history|] == s.history;
  }

  /** A message from an unrecognised author is logged and nothing else happens. */
  lemma UnknownSourceOnlyLogs(r: Roster, s: Session, m: UserMessage)
    requires SourceOf(m.source) == Other
    ensures Receive(r, s, m) == Transition(s.(history := s.history + [m]), [], Completed)
  {
  }

  /** The user's request makes the coordinator ask the product-information provider to speak. */
  lemma UserAsksForProductInfo(r: Roster, s: Session, m: UserMessage)
    requires SourceOf(m.source) == User
    ensures Receive(r, s, m).sends == [Send(RequestToSpeak, r.productInfoProvider)]
    ensures Receive(r, s, m).next == s.(history := s.history + [m])
    ensures Receive(r, s, m).status == Completed
  {
  }

  /**
   Product information is stored, relayed to every writer in list order, and
   then the writer at the current index is asked to speak; the counters stay.
   */
  lemma ProductInfoReachesEveryWriter(r: Roster, s: Session, m: UserMessage)
    requires SourceOf(m.source) == ProductInformationProvider
    ensures var t := Receive(r, s, m);
      && t.next == s.(history := s.history + [m], productInfo := Some(m.content))
      && |r.writers| <= |t.sends|
      && (forall i :: 0 <= i < |r.writers| ==>
            t.sends[i] == Send(GroupChat(UserMessage(m.content, ManagerName)), r.writers[i]))
      && (s.writerIndex < |r.writers| ==>
            t.sends[|r.writers|..] == [Send(RequestToSpeak, r.writers[s.writerIndex])] && t.status == Completed)
      && (|r.writers| <= s.writerIndex ==> |t.sends| == |r.writers| && t.status == IndexError)
  {
  }

  /** A draft from one of the three named writers goes to the editor, who is then asked to speak. */
  lemma DraftGoesToEditor(r: Roster, s: Session, m: UserMessage)
    requires IsWriter(SourceOf(m.source))
    ensures Receive(r, s, m).sends == [Send(GroupChat(m), r.editor), Send(RequestToSpeak, r.editor)]
    ensures Receive(r, s, m).next == s.(history := s.history + [m])
    ensures Receive(r, s, m).status == Completed
  {
  }

  /**
   An approving verdict adds exactly one approval; while approvals remain below
   the number of writers the next writer is asked to speak, otherwise nothing is sent.
   */
  lemma ApprovalAdvancesWriter(r: Roster, s: Session, m: UserMessage)
    requires Inv(r, s)
    requires SourceOf(m.source) == Editor && IsApproval(m.content)
    ensures var t := Receive(r, s, m);
      && t.status == Completed
      && t.next.approvedDrafts == s.approvedDrafts + 1
      && t.next.productInfo == s.productInfo
      && (s.approvedDrafts + 1 < |r.writers| ==>
            t.next.writerIndex == s.writerIndex + 1
            && t.sends == [Send(RequestToSpeak, r.writers[s.writerIndex + 1])])
      && (|r.writers| <= s.approvedDrafts + 1 ==>
            t.next.writerIndex == s.writerIndex && t.sends == [])
  {
  }

  /**
   A verdict that does not approve goes back to the writer at the current
   index, who is asked to revise; the index and the approvals stay.
   */
  lemma FeedbackGoesToCurrentWriter(r: Roster, s: Session, m: UserMessage)
    requires SourceOf(m.source) == Editor && !IsApproval(m.content)
    ensures var t := Receive(r, s, m);
      && t.next == s.(history := s.history + [m])
      && (s.writerIndex < |r.writers| ==>
            var w := r.writers[s.writerIndex];
            t.sends == [Send(GroupChat(m), w), Send(RequestToSpeak, w)] && t.status == Completed)
      && (|r.writers| <= s.writerIndex ==> t.sends == [] && t.status == IndexError)
  {
  }

  /** With at least one writer, no handler of a coordinator in its invariant raises `IndexError`. */
  lemma WritersAccessInBounds(r: Roster, s: Session, m: UserMessage)
    requires Inv(r, s) && |r.writers| > 0
    ensures s.writerIndex < |r.writers|
    ensures Receive(r, s, m).status == Completed
    ensures SpeakRequested(r, s).status == Completed
  {
  }

  /** A turn request yields exactly one request to speak: the provider until product information is known, then the current writer. */
  lemma SpeakRequestedTarget(r: Roster, s: Session)
    requires Inv(r, s) && |r.writers| > 0
    ensures SpeakRequested(r, s).sends ==
      [Send(RequestToSpeak, if s.productInfo.None? then r.productInfoProvider else r.writers[s.writerIndex])]
  {
  }

  /** The state after construction satisfies the invariant. */
  lemma InitialInv(r: Roster)
    ensures Inv(r, Initial())
    ensures Initial().writerIndex == 0 && Initial().approvedDrafts == 0
  {
  }

  /** "DISAPPROVE" is read as an approval: the substring test finds "APPROVE" inside it. */
  lemma DisapproveIsApproval()
    ensures IsApproval("DISAPPROVE")
  {
    assert Text.Upper("DISAPPROVE") == "DISAPPROVE";
    assert Text.OccursAt("DISAPPROVE", "APPROVE", 3);
    Text.ContainsIff("DISAPPROVE", "APPROVE");
  }

  /** A verdict that negates the word is read as an approval too. */
  lemma NegatedApprovalIsApproval()
    ensures IsApproval("I would NOT APPROVE this")
  {
    assert Text.Upper("I would NOT APPROVE this") == "I WOULD NOT APPROVE THIS";
    assert Text.OccursAt("I WOULD NOT APPROVE THIS", "APPROVE", 12);
    Text.ContainsIff("I WOULD NOT APPROVE THIS", "APPROVE");
  }

  /** The word is found whatever its case. */
  lemma LowerCaseApproval()
    ensures IsApproval("approve")
  {
    assert Text.Upper("approve") == "APPROVE";
    assert Text.OccursAt("APPROVE", "APPROVE", 0);
    Text.ContainsIff("APPROVE", "APPROVE");
  }

  /** Revision feedback without the word is not an approval. */
  lemma FeedbackIsNotApproval()
    ensures !IsApproval("Please shorten this.")
  {
    assert Text.Upper("Please shorten this.") == "PLEASE SHORTEN THIS.";
    assert 'V' !in "PLEASE SHORTEN THIS.";
    Text.MissingCharacter("PLEASE SHORTEN THIS.", "APPROVE", 5);
  }

  /** The editor asking for a shorter draft sends that draft back to the writer at the current index. */
  lemma ShortenRequestGoesBack(r: Roster, s: Session)
    requires Inv(r, s) && |r.writers| > 0
    ensures var m := UserMessage("Please shorten this.", "Editor");
      var t := Receive(r, s, m);
      && t.next.writerIndex == s.writerIndex
      && t.next.approvedDrafts == s.approvedDrafts
      && t.sends == [Send(GroupChat(m), r.writers[s.writerIndex]), Send(RequestToSpeak, r.writers[s.writerIndex])]
  {
    var m := UserMessage("Please shorten this.", "Editor");
    FeedbackIsNotApproval();
    assert SourceOf(m.source) == Editor;
    FeedbackGoesToCurrentWriter(r, s, m);
  }
}
