# AI Tour Planner — session model

A Dafny model of the session logic of the two AI tour-planner pages: the basic
page (`TOUR.py`) and the extended "Pro" page (`tour1.py`). Each page collects
trip details in a form and sends a prompt built from them to a hosted chat
model. The reply is streamed into a chat transcript that lives in the session
state.

What the model captures:

- **Conversation store.** A sequence of `{role, text}` records (`Conversation.Record`). It is only ever reset to
  empty, extended by one question/reply pair, or, on the Pro page, replaced by a saved snapshot's history. That
  history is itself paired, because `ProSession.Valid` keeps every snapshot paired. So every reachable history is
  `Paired`: it has even length, with `user` at even and `model` at odd positions.
- **One model turn** (`get_gemini_response`). The remote endpoint is a total function from the context it
  replays and the new question to a finite `Stream`. A stream is its chunks, each with or without text, plus how
  it ends: `Completed`, or `Raised(error)` after the chunks delivered so far. A page without an API key holds no
  model (`None`).
  - The turn yields the text of every chunk that carries one, in order.
  - Only a completed stream appends anything: the question, then the concatenation of the yielded fragments.
  - A missing model yields one explanatory fragment and changes nothing.
  - An exception yields one diagnostic fragment after the partial ones and changes nothing.
  - `Conversation.Turn` states this once. `Conversation.StreamReply` is the accumulating loop. Each page's
    `Respond` method is proved equal to `Turn`.
- **Turn handlers.**
  - "Generate Itinerary" checks its guards first: missing fields, then a missing model. It then resets the
    history and starts a turn with empty context.
  - A follow-up needs a non-empty history and sends it as context.
  - "Clear" empties the history.
  - On the Pro page, a queued quick action replaces the typed query and is consumed.
- **Pro page state.** The current trip, the list of saved snapshots (save and load), the trip statistics
  (`total_trips`, `total_days` and a duplicate-free `destinations` list) and the export document.
- **Pure text functions.** Emoji-prefix stripping of interest labels, `", ".join`, Python's `str()` on
  non-negative integers, and the display and model prompt strings. For the prompts the model proves that every
  form field appears in the text.

Files: `wrappers.dfy` (Option), `strings.dfy` (module `Strings`), `conversation.dfy` (module `Conversation`, code
shared by both pages), `tour_basic.dfy` (module `TourBasic`, TOUR.py) and `tour_pro.dfy` (module `TourPro`,
tour1.py).

Behaviours of the code that the model keeps, though a reader might not expect them:

- A snapshot stores only destination, duration, interests, style, a timestamp and the history. Loading one
  therefore yields a current trip without budget, travelers or accommodation (`extras == None`).
- `destinations` is a list with a membership test, not a set.
- The Pro "Generate" resets the history and updates the trip and statistics before it calls the model. A failed
  stream therefore still leaves an empty history, the new trip and incremented counters.
- "Clear Chat" on the Pro page keeps `current_trip`. A later "Save Trip" then saves that trip with an empty
  history.
- A queued quick action is consumed even when the follow-up is refused.

## Model

| member | source | states |
|---|---|---|
| `Strings.Decimal` | TOUR.py:151 | the text interpolated for an integer is a non-empty string of digits with no leading zero |
| `Strings.DecimalRoundTrip` | TOUR.py:151 | that text reads back as the same number, so the prompt's duration is the chosen one |
| `Strings.ConcatAppend` | TOUR.py:74 | accumulating fragments one by one gives the concatenation of the whole list |
| `Strings.Concat` | TOUR.py:151 | every piece interpolated into an f-string occurs in the resulting text |
| `Strings.JoinContains` | tour1.py:361 | every item of `", ".join(items)` occurs in the joined text |
| `Conversation.Texts` | TOUR.py:70-78 | a stream yields at most one fragment per chunk |
| `Conversation.TextsAppend` | TOUR.py:70-78 | the fragments of two consecutive stretches of a stream are those of the first, then those of the second |
| `Conversation.TextsSkipsNoText` | tour1.py:79-83 | a chunk without text is neither yielded nor concatenated, wherever it stands |
| `Conversation.TextsKeepsText` | tour1.py:79-83 | a chunk with text contributes exactly its text, at its own position |
| `Conversation.ErrorFragment` | tour1.py:88-90 | the diagnostic fragment contains the exception's message |
| `Conversation.PairedAppend` | TOUR.py:82-83 | appending a user question and then a model reply keeps the history a sequence of question/reply pairs |
| `Conversation.PairedByIndex` | TOUR.py:82-83 | a paired history is exactly one of even length with `user` at even and `model` at odd indices (both directions) |
| `Conversation.Turn` | TOUR.py:52-87 | a turn never loses or rewrites records: the history is unchanged, or it is the old history followed by exactly two new records; without a model exactly one fragment is yielded |
| `Conversation.TurnWithoutModel` | tour1.py:70-72 | with no model a turn yields exactly one error fragment and leaves the history unchanged |
| `Conversation.TurnCommitsPair` | tour1.py:77-86 | on a completed stream the history grows by exactly two: a `user` record with the question, then a `model` record whose text is the in-order concatenation of every yielded fragment; the old records are kept |
| `Conversation.TurnFailureCommitsNothing` | tour1.py:85-90 | on an exception, even after partial fragments, no record is appended; the yielded fragments are the partial texts followed by one diagnostic naming the error |
| `Conversation.TurnKeepsPaired` | TOUR.py:80-87 | every turn, whatever its stream, keeps the history paired |
| `Conversation.StreamReply` | TOUR.py:69-78 | the loop yields exactly the texts of the text-carrying chunks in order, and its accumulated reply is their concatenation |
| `TourBasic.DisplaySummary` | TOUR.py:142-148 | the transcript summary contains the destination, duration, interests and style |
| `TourBasic.ModelPrompt` | TOUR.py:151 | the model prompt contains the duration, destination, interests and style |
| `TourBasic.BasicSession.constructor` | TOUR.py:48-49 | a session starts with an empty history |
| `TourBasic.BasicSession.Respond` | TOUR.py:52-87 | the generator's fragments and resulting history are those of `Turn` for this page's not-initialised message, and the history stays paired |
| `TourBasic.BasicSession.Clear` | TOUR.py:97-99 | the history becomes empty |
| `TourBasic.BasicSession.Generate` | TOUR.py:132-164 | empty destination or interests: warning, no change; no model: error, no change; otherwise a fresh turn on the model prompt with empty context and empty history, so after a completed stream the history is exactly [prompt, reply] |
| `TourBasic.BasicSession.FollowUp` | TOUR.py:168-185 | no query: nothing; empty history: refused, no change; no model: error, no change; otherwise a turn whose context is the existing history |
| `TourPro.FirstSpace` | tour1.py:356 | finds the first space: it is a space and none comes before it, and none is found exactly when the label has no space |
| `TourPro.CleanInterest` | tour1.py:356 | the cleaned interest is a suffix of the label |
| `TourPro.CleanInterestStripsPrefix` | tour1.py:356 | a label made of a space-free prefix, a space and a text cleans to exactly that text (the part after the first space) |
| `TourPro.CleanInterestWithoutSpace` | tour1.py:356 | a label without a space is unchanged |
| `TourPro.InterestsText` | tour1.py:356-361 | each selected interest, cleaned, appears in the stored interests text |
| `TourPro.DisplaySummary` | tour1.py:375-387 | the transcript summary contains every form field, with "None" for empty additional preferences |
| `TourPro.ModelPrompt` | tour1.py:390-409 | the model prompt contains duration, destination, travelers, budget, interests, style, accommodation and the additional preferences (or "None") |
| `TourPro.ModelPromptMentionsEachInterest` | tour1.py:390-392 | every selected interest, with its emoji prefix stripped, reaches the model |
| `TourPro.WithDestination` | tour1.py:370-371 | after recording, the destination is listed; no other entry is added or removed, and the list grows by at most one |
| `TourPro.RecordTripKeepsStats` | tour1.py:368-371 | recording a trip of at least one day keeps the destinations duplicate-free and `len(destinations) <= total_trips <= total_days` |
| `TourPro.ProSession.constructor` | tour1.py:51-65 | empty history and snapshot list, no current trip, zero counters, no destinations, no quick action |
| `TourPro.ProSession.Respond` | tour1.py:68-90 | the generator's fragments and history are those of `Turn` for this page's message; only the history may change |
| `TourPro.ProSession.SaveItinerary` | tour1.py:92-103 | appends exactly one snapshot of the given fields, the timestamp and the history at save time; the snapshot is a value, so later resets or appends cannot change it |
| `TourPro.ProSession.Export` | tour1.py:105-112 | the export document carries the current trip (or none), the full active history and the given export time, and its chat history is a sequence of question/reply pairs |
| `TourPro.ProSession.LoadSavedItinerary` | tour1.py:114-123 | for an index within the list, the history becomes the snapshot's and the current trip exactly its destination, duration, interests and style; the snapshot list and statistics are untouched; an export made right after carries the snapshot's history |
| `TourPro.ProSession.Clear` | tour1.py:218-220 | the history becomes empty; the trip, snapshots and statistics are kept |
| `TourPro.ProSession.SaveTrip` | tour1.py:223-230 | saves a snapshot of the current trip and history only when there is a current trip |
| `TourPro.ProSession.QueueQuickAction` | tour1.py:261-273 | a quick-action button queues its query text |
| `TourPro.ProSession.RecordTrip` | tour1.py:351-372 | the history becomes empty, the current trip the given one, `total_trips` grows by 1, `total_days` by the duration, and the destination is appended unless already listed |
| `TourPro.ProSession.Generate` | tour1.py:345-421 | missing destination or interests, or no model: the matching warning and no state change; otherwise the trip records the cleaned, joined interests, `total_trips` grows by 1, `total_days` by the duration, the destination is in the list at most once, and the history is that of a fresh turn with empty context; counters never decrease |
| `TourPro.ProSession.FollowUp` | tour1.py:424-447 | a queued quick action replaces the typed query and is always consumed; an empty query does nothing; with an empty history the query is refused; otherwise it is sent with the current history as context |

## Left out

- Rendering: `st.markdown`, chat bubbles, spinners, toasts, feedback buttons, the welcome panel, the statistics
  dashboard and `st.rerun`. These are presentation only. The warnings and errors a handler shows are reduced to
  its `Outcome`.
- Secrets and environment loading, `genai.configure`, `GenerativeModel`, `start_chat` and `send_message`. These are
  calls into a remote service. The model is `Option<Remote>`, a function from (context, question) to a stream. The
  system instruction is part of that function.
- Which chunks count as text-less. The model treats a chunk as having a text attribute or not. Whether the client
  library raises rather than omits the attribute is the library's behaviour, and a raise is covered by `Raised`.
- The timing of the lazy generator. The transcript always drains it, so a turn is modelled as drained to the end.
- `datetime.now()`: the timestamp is an opaque `now` parameter to save and export.
- `json.dumps`: the export is modelled as the record `{trip_details, chat_history, exported_at}`, not as text. The
  "Export Chat" button is only shown when the history is non-empty, which is a UI gate.
- Python's negative indices in `load_saved_itinerary`. The only caller passes `enumerate` indices, so the index is
  required to be within the list.
- List aliasing. The follow-up passes the session's own history list as context, and `.copy()` makes shallow
  copies. No record is ever mutated in place, so value semantics give the same results.
- Several widgets acting in one script run. Each handler is modelled as one event. Generate's `st.rerun` ends its
  run before the follow-up code is reached.
- Widget ranges. The Pro slider's 1–30 day range is a precondition of `TourPro.ProSession.Generate`. Travelers,
  budget, style and accommodation are plain values; the select boxes only restrict them to fixed option lists.
- The basic page's display indentation and the Pro page's emoji are reproduced. The proofs rely only on
  containment of the fields, not on the exact wording.
