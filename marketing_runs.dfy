/**
 The coordinator over a whole session, taken as `Marketing.Receive` applied to
 each message in turn, every handler call being one step.
 */
module MarketingRuns {
  import opened Marketing

  /** Handling `msgs` in order: the last state, every send in order, and whether any handler raised. */
  function Run(r: Roster, s: Session, msgs: seq<UserMessage>): Transition
    decreases |msgs|
  {
    if msgs == [] then
      Transition(s, [], Completed)
    else
      var first := Receive(r, s, msgs[0]);
      var rest := Run(r, first.next, msgs[1..]);
      Transition(rest.next, first.sends + rest.sends,
        if first.status.IndexError? then IndexError else rest.status)
  }

  /** The coordinator's history is exactly the messages it handled, in order; nothing is removed. */
  lemma {:induction false} RunLogsEveryMessage(r: Roster, s: Session, msgs: seq<UserMessage>)
    ensures Run(r, s, msgs).next.history == s.history + msgs
    decreases |msgs|
  {
    if msgs != [] {
      var first := Receive(r, s, msgs[0]);
      RunLogsEveryMessage(r, first.next, msgs[1..]);
      assert [msgs[0]] + msgs[1..] == msgs;
    }
  }

  /** The invariant holds after any sequence of messages. */
  lemma {:induction false} RunKeepsInv(r: Roster, s: Session, msgs: seq<UserMessage>)
    requires Inv(r, s)
    ensures Inv(r, Run(r, s, msgs).next)
    decreases |msgs|
  {
    if msgs != [] {
      RunKeepsInv(r, Receive(r, s, msgs[0]).next, msgs[1..]);
    }
  }

  /** Approvals never decrease, and each message adds at most one. */
  lemma {:induction false} RunApprovalsGrow(r: Roster, s: Session, msgs: seq<UserMessage>)
    ensures s.approvedDrafts <= Run(r, s, msgs).next.approvedDrafts <= s.approvedDrafts + |msgs|
    ensures s.writerIndex <= Run(r, s, msgs).next.writerIndex
    decreases |msgs|
  {
    if msgs != [] {
      RunApprovalsGrow(r, Receive(r, s, msgs[0]).next, msgs[1..]);
    }
  }

  /** With at least one writer, a session that starts in the invariant never raises `IndexError`. */
  lemma {:induction false} RunNeverRaises(r: Roster, s: Session, msgs: seq<UserMessage>)
    requires Inv(r, s) && |r.writers| > 0
    ensures Run(r, s, msgs).status == Completed
    decreases |msgs|
  {
    if msgs != [] {
      WritersAccessInBounds(r, s, msgs[0]);
      RunNeverRaises(r, Receive(r, s, msgs[0]).next, msgs[1..]);
    }
  }

  /** Review rounds: each draft is followed by the editor's verdict on it. */
  function ReviewRounds(drafts: seq<UserMessage>, verdicts: seq<string>): (msgs: seq<UserMessage>)
    requires |drafts| == |verdicts|
    decreases |drafts|
  {
    if drafts == [] then []
    else [drafts[0], UserMessage(verdicts[0], "Editor")] + ReviewRounds(drafts[1..], verdicts[1..])
  }

  /**
   What the coordinator sends when every draft, from approval count `approved`
   on, is approved at first review: each draft and a turn request go to the
   editor, then the next writer in list order is asked for its draft.
   */
  function FirstPassSends(r: Roster, approved: nat, drafts: seq<UserMessage>): seq<Send>
    decreases |drafts|
  {
    if drafts == [] then
      []
    else
      var review := [Send(GroupChat(drafts[0]), r.editor), Send(RequestToSpeak, r.editor)];
      var advance := if approved + 1 < |r.writers| then [Send(RequestToSpeak, r.writers[approved + 1])] else [];
      review + advance + FirstPassSends(r, approved + 1, drafts[1..])
  }

  /** Handling two messages and then `rest` is handling the first, the second, then `rest`. */
  lemma RunTwoThenRest(r: Roster, s: Session, a: UserMessage, b: UserMessage, rest: seq<UserMessage>)
    ensures var t1 := Receive(r, s, a);
      var t2 := Receive(r, t1.next, b);
      var t3 := Run(r, t2.next, rest);
      Run(r, s, [a, b] + rest) == Transition(t3.next, t1.sends + t2.sends + t3.sends,
        if t1.status.IndexError? || t2.status.IndexError? then IndexError else t3.status)
  {
    var msgs := [a, b] + rest;
    assert msgs[0] == a && msgs[1..] == [b] + rest;
    assert ([b] + rest)[0] == b && ([b] + rest)[1..] == rest;
  }

  /** One review round whose draft is approved at first review. */
  lemma ApprovedRound(r: Roster, s: Session, draft: UserMessage, verdict: string)
    requires Inv(r, s) && s.approvedDrafts < |r.writers|
    requires IsWriter(SourceOf(draft.source)) && IsApproval(verdict)
    ensures var t1 := Receive(r, s, draft);
      var t2 := Receive(r, t1.next, UserMessage(verdict, "Editor"));
      && t1.status == Completed && t2.status == Completed
      && t2.next.approvedDrafts == s.approvedDrafts + 1
      && Inv(r, t2.next)
      && t2.next.productInfo == s.productInfo
      && t1.sends + t2.sends == FirstPassSends(r, s.approvedDrafts, [draft])
  {
    var t1 := Receive(r, s, draft);
    DraftGoesToEditor(r, s, draft);
    var m := UserMessage(verdict, "Editor");
    assert SourceOf(m.source) == Editor;
    ApprovalAdvancesWriter(r, t1.next, m);
  }

  /**
   Drafts that are all approved at first review move the coordinator through
   the writers in list order: one approval per round, the index following,
   and the sends of `FirstPassSends`.
   */
  lemma {:induction false} FirstPassApprovals(r: Roster, s: Session, drafts: seq<UserMessage>, verdicts: seq<string>)
    requires Inv(r, s) && s.approvedDrafts + |drafts| <= |r.writers|
    requires |drafts| == |verdicts|
    requires forall i :: 0 <= i < |drafts| ==> IsWriter(SourceOf(drafts[i].source))
    requires forall i :: 0 <= i < |verdicts| ==> IsApproval(verdicts[i])
    ensures var t := Run(r, s, ReviewRounds(drafts, verdicts));
      && t.next.approvedDrafts == s.approvedDrafts + |drafts|
      && Inv(r, t.next)
      && t.next.productInfo == s.productInfo
      && t.sends == FirstPassSends(r, s.approvedDrafts, drafts)
      && t.status == Completed
    decreases |drafts|
  {
    if drafts != [] {
      var verdict := UserMessage(verdicts[0], "Editor");
      var rest := ReviewRounds(drafts[1..], verdicts[1..]);
      assert ReviewRounds(drafts, verdicts) == [drafts[0], verdict] + rest;
      RunTwoThenRest(r, s, drafts[0], verdict, rest);
      ApprovedRound(r, s, drafts[0], verdicts[0]);
      var t1 := Receive(r, s, drafts[0]);
      var t2 := Receive(r, t1.next, verdict);
      FirstPassApprovals(r, t2.next, drafts[1..], verdicts[1..]);
      var t3 := Run(r, t2.next, rest);
      calc {
        Run(r, s, ReviewRounds(drafts, verdicts)).sends;
        t1.sends + t2.sends + t3.sends;
        FirstPassSends(r, s.approvedDrafts, [drafts[0]]) + FirstPassSends(r, s.approvedDrafts + 1, drafts[1..]);
        FirstPassSends(r, s.approvedDrafts, drafts);
      }
    }
  }

  /**
   A whole session that approves every draft at first review: starting right
   after the product information arrived, one round per writer ends with as
   many approvals as writers, the index at the last writer, and every writer
   after the first asked to speak in list order.
   */
  lemma AllApprovedSession(r: Roster, s: Session, drafts: seq<UserMessage>, verdicts: seq<string>)
    requires s.approvedDrafts == 0 && s.writerIndex == 0
    requires |drafts| == |verdicts| == |r.writers| > 0
    requires forall i :: 0 <= i < |drafts| ==> IsWriter(SourceOf(drafts[i].source))
    requires forall i :: 0 <= i < |verdicts| ==> IsApproval(verdicts[i])
    ensures var t := Run(r, s, ReviewRounds(drafts, verdicts));
      && t.next.approvedDrafts == |r.writers|
      && t.next.writerIndex == |r.writers| - 1
      && t.sends == FirstPassSends(r, 0, drafts)
      && t.status == Completed
  {
    FirstPassApprovals(r, s, drafts, verdicts);
  }
}
