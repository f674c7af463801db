/**
 The history trimming of `ChatFlow.__call__` (class_flows/flows/chat_basic/flow.py):
 before the prompt is rendered, the oldest history entries are dropped one at a
 time until the prompt's token estimate fits the limit or the history is empty.
 The estimator belongs to the prompt library and is a parameter here.
 */
module ChatFlow {
  import opened Wrappers

  /** `chat_history or []`: a missing history is an empty one. */
  function GivenHistory<T>(chatHistory: Option<seq<T>>): (h: seq<T>)
    ensures chatHistory.Some? ==> h == chatHistory.value
    ensures chatHistory.None? ==> h == []
  {
    if chatHistory.None? then [] else chatHistory.value
  }

  /**
   The history that is kept: the longest suffix of `history` that is empty or
   whose estimate fits `maxTotalToken`, found by scanning from the oldest end.
   */
  function Trimmed<T>(question: string, history: seq<T>, maxTotalToken: int,
                      estimate: (string, seq<T>) -> int): (kept: seq<T>)
    ensures |kept| <= |history| && kept == history[|history| - |kept|..]
    ensures kept == [] || estimate(question, kept) <= maxTotalToken
    ensures forall k :: 0 <= k < |history| - |kept| ==> estimate(question, history[k..]) > maxTotalToken
    decreases |history|
  {
    if |history| == 0 then
      []
    else if estimate(question, history) > maxTotalToken then
      var rest := Trimmed(question, history[1..], maxTotalToken, estimate);
      assert forall k :: 1 <= k <= |history| ==> history[1..][k - 1..] == history[k..];
      rest
    else
      history
  }

  /** A history that already fits is kept whole. */
  lemma FittingHistoryIsKept<T>(question: string, history: seq<T>, maxTotalToken: int,
                                estimate: (string, seq<T>) -> int)
    requires estimate(question, history) <= maxTotalToken
    ensures Trimmed(question, history, maxTotalToken, estimate) == history
  {
  }

  /** The three properties of `Trimmed` determine the kept history: no other suffix has them. */
  lemma TrimmedIsUnique<T>(question: string, history: seq<T>, maxTotalToken: int,
                           estimate: (string, seq<T>) -> int, other: seq<T>)
    requires |other| <= |history| && other == history[|history| - |other|..]
    requires other == [] || estimate(question, other) <= maxTotalToken
    requires forall k :: 0 <= k < |history| - |other| ==> estimate(question, history[k..]) > maxTotalToken
    ensures other == Trimmed(question, history, maxTotalToken, estimate)
  {
  }

  /**
   The trimming loop. Besides the kept history it returns `probes`, the
   histories handed to the estimator, in call order: nothing for an empty
   history, and otherwise the input with 0, 1, 2, ... oldest entries dropped.
   */
  method TrimHistory<T>(question: string, chatHistory: Option<seq<T>>, maxTotalToken: int,
                        estimate: (string, seq<T>) -> int)
    returns (history: seq<T>, probes: seq<seq<T>>)
    ensures history == Trimmed(question, GivenHistory(chatHistory), maxTotalToken, estimate)
    ensures GivenHistory(chatHistory) == [] ==> probes == []
    ensures |probes| == |GivenHistory(chatHistory)| - |history| + (if history == [] then 0 else 1)
    ensures forall i :: 0 <= i < |probes| ==> probes[i] == GivenHistory(chatHistory)[i..]
  {
    ghost var given := GivenHistory(chatHistory);
    history := if chatHistory.None? then [] else chatHistory.value;
    probes := [];
    while |history| > 0
      invariant |history| <= |given| && history == given[|given| - |history|..]
      invariant forall k :: 0 <= k < |given| - |history| ==> estimate(question, given[k..]) > maxTotalToken
      invariant |probes| == |given| - |history|
      invariant forall i :: 0 <= i < |probes| ==> probes[i] == given[i..]
      decreases |history|
    {
      var tokenCount := estimate(question, history);
      probes := probes + [history];
      if tokenCount > maxTotalToken {
        assert given[|given| - |history|..][1..] == given[|given| - |history| + 1..];
        history := history[1..];
      } else {
        break;
      }
    }
    TrimmedIsUnique(question, given, maxTotalToken, estimate, history);
  }
}
