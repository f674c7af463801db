# Marketing-campaign turn coordinator and chat-history trimming

This project models, in Dafny, the two pieces of logic in the
`class_flows/flows/chat_basic` flows that are more than glue around model
and runtime SDKs:

- **The marketing-campaign group chat** (`agnext_flow.py`). A coordinator,
  `MarketingManagerAgent`, routes messages between a product-information
  provider, three writers (email, Facebook post, Twitter post) and an editor.
  The user's request makes it ask the provider to speak. The provider's
  product information is relayed to every writer, and then the current
  writer is asked for a draft. A draft goes to the editor. The editor's
  verdict either advances to the next writer or sends the draft back to the
  same writer. The five role agents follow one pattern: they keep every
  message they receive, and when asked to speak they add the model's
  completion to their history under their own name and publish it.
- **History trimming in `ChatFlow.__call__`** (`flow.py`). The oldest
  history entries are dropped one at a time until the prompt's token
  estimate fits `max_total_token` or the history is empty.

Layout:

- `wrappers.dfy` (`Wrappers`): the `Option` type.
- `text.dfy` (`Text`): ASCII upper-casing and the substring test, with the
  lemma that the left-to-right scan finds exactly the occurrences.
- `marketing.dfy` (`Marketing`): the message and session datatypes, the
  coordinator as pure transition functions (`Receive` for `handle_message`,
  `SpeakRequested` for `handle_request_to_speak`), its invariant and one
  lemma per routing rule.
- `marketing_runs.dfy` (`MarketingRuns`): sessions as messages handled one
  after another. It holds the properties of whole runs: the log is
  append-only, the invariant holds throughout, approvals never decrease, and
  first-pass approvals walk through the writers in list order.
- `agnext_flow.dfy` (`AgnextFlow`): the agents as classes whose handlers
  update their fields in place. `MarketingManager`'s methods are proved to
  follow `Marketing.Receive` and `Marketing.SpeakRequested`. `RoleAgent`
  stands for all five role agents.
- `chat_flow.dfy` (`ChatFlow`): the trimming loop as a method. It is proved
  against `Trimmed`, which characterises the kept history completely.

The approval test is reproduced as written: the editor's text is
upper-cased and searched for `"APPROVE"`, so "DISAPPROVE" and
"I would NOT APPROVE this" count as approvals (`Marketing.DisapproveIsApproval`,
`Marketing.NegatedApprovalIsApproval`).

Behaviour of the code that the model keeps:

- Approvals keep counting after the last writer. An approving verdict always
  increments `_approved_drafts` (agnext_flow.py line 264), so the count can
  exceed the number of writers. A later turn request still asks
  `writers[_current_writer_index]`, the last writer (line 300). A later
  non-approving verdict still goes back to that writer (lines 272-280).
- A draft is forwarded to the editor with its body unchanged (line 255).
  The author of a draft is not checked against the current index: any of the
  three hard-coded writer names is accepted (line 252).
- With an empty writer list, the handlers raise `IndexError` at
  `self._writers[...]`. The model returns `Status.IndexError` with the state
  as it was when the exception was raised. `Marketing.WritersAccessInBounds`
  and `MarketingRuns.RunNeverRaises` show this cannot happen with at least
  one writer.

## Model

| member | source | states |
|---|---|---|
| `Text.ContainsIff` | class_flows/flows/chat_basic/agnext_flow.py:263 | the substring test holds exactly when the needle occurs at some position of the text |
| `Text.MissingCharacter` | class_flows/flows/chat_basic/agnext_flow.py:263 | a text lacking one character of the needle does not contain it |
| `Marketing.SourceOf` | class_flows/flows/chat_basic/agnext_flow.py:229-288 | a source string is classified as a known author exactly when it is that author's name; every other string is `Other` |
| `Marketing.SourceNameRoundTrip` | class_flows/flows/chat_basic/agnext_flow.py:231-282 | the name each known author writes in its messages is classified back to that author |
| `Marketing.InitialInv` | class_flows/flows/chat_basic/agnext_flow.py:216-219 | the initial state (index 0, no approvals) satisfies the invariant |
| `Marketing.ExpectedIndex` | class_flows/flows/chat_basic/agnext_flow.py:264-269 | the index the approval count determines equals the count while below the number of writers, and is always a valid writer index when there is a writer |
| `Marketing.FanOut` | class_flows/flows/chat_basic/agnext_flow.py:237-245 | the relay holds one message per writer, the i-th to the i-th writer, carrying the product information under the coordinator's name |
| `Marketing.Receive` | class_flows/flows/chat_basic/agnext_flow.py:222-288 | every message is appended to the history; approvals and index grow by at most one; `IndexError` only with the index past the writer list; the invariant is preserved |
| `Marketing.SpeakRequested` | class_flows/flows/chat_basic/agnext_flow.py:290-301 | no state change; at most one send, always a turn request; to the provider while product information is missing; nothing sent exactly when `IndexError` is raised |
| `Marketing.ReceiveLogsOnce` | class_flows/flows/chat_basic/agnext_flow.py:227-228 | the new history is the old one followed by exactly this message |
| `Marketing.UnknownSourceOnlyLogs` | class_flows/flows/chat_basic/agnext_flow.py:285-288 | a message from an unrecognised author is logged, nothing is sent, nothing else changes |
| `Marketing.UserAsksForProductInfo` | class_flows/flows/chat_basic/agnext_flow.py:282-284 | a user message yields exactly one turn request, to the provider, and only the log changes |
| `Marketing.ProductInfoReachesEveryWriter` | class_flows/flows/chat_basic/agnext_flow.py:231-250 | product information is stored, sent to every writer in list order, then the writer at the current index is asked to speak; index and approvals stay |
| `Marketing.DraftGoesToEditor` | class_flows/flows/chat_basic/agnext_flow.py:252-259 | a draft from one of the three writer names is forwarded to the editor, then the editor is asked to speak; only the log changes |
| `Marketing.ApprovalAdvancesWriter` | class_flows/flows/chat_basic/agnext_flow.py:261-271 | an approving verdict adds exactly one approval; below the writer count the index advances and the next writer is asked to speak, otherwise nothing is sent and the index stays |
| `Marketing.FeedbackGoesToCurrentWriter` | class_flows/flows/chat_basic/agnext_flow.py:272-280 | a non-approving verdict goes to the writer at the current index, who is then asked to speak; index and approvals stay |
| `Marketing.WritersAccessInBounds` | class_flows/flows/chat_basic/agnext_flow.py:248-301 | with at least one writer and the invariant, the index is in bounds and neither handler raises |
| `Marketing.SpeakRequestedTarget` | class_flows/flows/chat_basic/agnext_flow.py:294-301 | a turn request yields exactly one turn request: to the provider without product information, else to the current writer |
| `Marketing.DisapproveIsApproval` | class_flows/flows/chat_basic/agnext_flow.py:262-263 | "DISAPPROVE" counts as an approval |
| `Marketing.NegatedApprovalIsApproval` | class_flows/flows/chat_basic/agnext_flow.py:262-263 | "I would NOT APPROVE this" counts as an approval |
| `Marketing.LowerCaseApproval` | class_flows/flows/chat_basic/agnext_flow.py:262-263 | "approve" in lower case counts as an approval |
| `Marketing.ApprovalIgnoresCase` | class_flows/flows/chat_basic/agnext_flow.py:262-263 | a verdict is an approval exactly when, at some position, its next seven characters upper-case to "APPROVE" |
| `Marketing.FeedbackIsNotApproval` | class_flows/flows/chat_basic/agnext_flow.py:262-263 | "Please shorten this." is not an approval |
| `Marketing.ShortenRequestGoesBack` | class_flows/flows/chat_basic/agnext_flow.py:261-280 | the editor's "Please shorten this." goes back to the writer at the current index, who is asked to speak again; index and approvals stay |
| `MarketingRuns.RunLogsEveryMessage` | class_flows/flows/chat_basic/agnext_flow.py:227-228 | after any run, the history is the old history followed by every handled message in order |
| `MarketingRuns.RunKeepsInv` | class_flows/flows/chat_basic/agnext_flow.py:264-269 | the index stays equal to min(approvals, writers - 1) over any run |
| `MarketingRuns.RunApprovalsGrow` | class_flows/flows/chat_basic/agnext_flow.py:264-267 | over a run, approvals never decrease and grow by at most one per message; the index never decreases |
| `MarketingRuns.RunNeverRaises` | class_flows/flows/chat_basic/agnext_flow.py:248-301 | with at least one writer, no message of any run raises `IndexError` |
| `MarketingRuns.ApprovedRound` | class_flows/flows/chat_basic/agnext_flow.py:252-269 | a draft approved at first review adds one approval, keeps the invariant and sends draft and turn request to the editor, then asks the next writer |
| `MarketingRuns.FirstPassApprovals` | class_flows/flows/chat_basic/agnext_flow.py:252-271 | rounds all approved at first review add one approval each and produce exactly the round-by-round sends, the writers asked in list order |
| `MarketingRuns.AllApprovedSession` | class_flows/flows/chat_basic/agnext_flow.py:252-271 | one approved round per writer ends with as many approvals as writers and the index at the last writer |
| `AgnextFlow.SpokenTurnsAppend` | class_flows/flows/chat_basic/agnext_flow.py:93-101 | the turns an agent spoke in a joined history are those of each part, in order |
| `AgnextFlow.RoleAgent.constructor` | class_flows/flows/chat_basic/agnext_flow.py:73-81 | a role agent starts with its instructions as the only history entry and has published nothing |
| `AgnextFlow.RoleAgent.HandleMessage` | class_flows/flows/chat_basic/agnext_flow.py:83-87 | a received message is appended to the agent's history; nothing is published |
| `AgnextFlow.RoleAgent.HandleRequestToSpeak` | class_flows/flows/chat_basic/agnext_flow.py:89-102 | the completion of the current history is appended once under the agent's own name and published under that name; what the agent publishes is routed by the coordinator as coming from its role |
| `AgnextFlow.MarketingManager.constructor` | class_flows/flows/chat_basic/agnext_flow.py:205-220 | the coordinator starts in `Marketing.Initial` with an empty output queue and no sends |
| `AgnextFlow.MarketingManager.HandleMessage` | class_flows/flows/chat_basic/agnext_flow.py:222-288 | the fields, the output queue, the sends and the raised error are those of `Marketing.Receive`; the invariant is kept |
| `AgnextFlow.MarketingManager.HandleRequestToSpeak` | class_flows/flows/chat_basic/agnext_flow.py:290-301 | only the sends change, as `Marketing.SpeakRequested` says; the invariant is kept |
| `ChatFlow.Trimmed` | class_flows/flows/chat_basic/flow.py:66-78 | the kept history is a suffix of the input; it is empty or fits the limit; every longer suffix exceeds the limit |
| `ChatFlow.FittingHistoryIsKept` | class_flows/flows/chat_basic/flow.py:68-78 | a history whose estimate already fits is returned unchanged |
| `ChatFlow.TrimmedIsUnique` | class_flows/flows/chat_basic/flow.py:68-78 | any suffix with the three properties of the kept history is the kept history |
| `ChatFlow.TrimHistory` | class_flows/flows/chat_basic/flow.py:66-78 | the loop returns the `Trimmed` history; the estimator is never called on an empty history; its i-th call sees the input with the i oldest entries dropped |

## Left out

- Text.Upper: models ASCII upper-casing only; Python's `str.upper()` also maps non-ASCII letters and can change the length ("ß" becomes "SS").
- Model calls: the completion a role agent obtains from its model client is a parameter (`complete`) applied to the agent's history. The token estimate and the prompt rendering of `ChatFlow` are outside the model. The estimate is a parameter (`estimate`). The rendering and the yielded output are not modelled.
- Message delivery: the runtime, agent registration and topic subscriptions (`AGNextFlow` in `flow.py`) are not modelled. Who receives a published message is the runtime's business. The coordinator's direct sends are recorded in order in `outbox`.
- Interleaving inside a handler: `handle_message` awaits each send (agnext_flow.py lines 238-259) before reading `_current_writer_index` again. The model takes each handler call as one atomic step, with no other handler running between its sends.
- The output queue is an append-only sequence. Its dictionary serialisation and the end-of-stream `None` are not modelled.
- Console output: the "All drafts have been approved." print and the trimming `log` line are not modelled.
- The role agents' instruction texts are a constructor parameter. The model client handed to each agent is not modelled.
- Message bodies are text with a source. The autogen message types can carry other content (images, function calls), but this flow never sends them.
- The document-processing, web-research and front-end parts of the repository are not part of this model.
