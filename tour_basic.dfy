/**
 The basic planner page (TOUR.py): the session holds only the chat history.
 "Generate Itinerary" starts a fresh conversation from the form fields,
 "Clear Conversation" empties it, and the chat box sends follow-up questions
 with the existing history as context.
 */
module TourBasic {
  import opened Wrappers
  import opened Strings
  import opened Conversation

  /** The fragment yielded when no model is configured. */
  const NotReadyMessage: string := "Error: Gemini model is not initialized. Please check your API key."

  /**
   The summary of the form shown in the transcript (never sent to the model):
   the f-string's literal text with the fields interpolated, as pieces.
   */
  function DisplayPieces(destination: string, duration: nat, interests: string, style: string): seq<string>
  {
    [ "\n        **Planning a trip with the following details:**\n        - **Destination:** ", destination,
      "\n        - **Duration:** ", Decimal(duration),
      " days\n        - **Interests:** ", interests,
      "\n        - **Travel Style:** ", style,
      "\n        " ]
  }

  /** The summary restates every form field. */
  function DisplaySummary(destination: string, duration: nat, interests: string, style: string): (s: string)
    ensures Contains(s, destination) && Contains(s, Decimal(duration)) && Contains(s, interests) && Contains(s, style)
  {
    var pieces := DisplayPieces(destination, duration, interests, style);
    assert pieces[1] == destination && pieces[3] == Decimal(duration) && pieces[5] == interests && pieces[7] == style;
    Concat(pieces)
  }

  /** The fixed closing part of the itinerary instruction. */
  const ItineraryRequest: string :=
    " travel style. Create a detailed, day-by-day itinerary. Make it engaging and easy to read. "
    + "Use Markdown for formatting (like bolding and bullet points)."

  /** The instruction sent to the model for a new itinerary, as pieces. */
  function PromptPieces(destination: string, duration: nat, interests: string, style: string): seq<string>
  {
    [ "Plan a ", Decimal(duration),
      "-day trip to ", destination,
      " for a traveler with interests in ", interests,
      " and a ", style,
      ItineraryRequest ]
  }

  /** The model prompt carries the duration, destination, interests and style. */
  function ModelPrompt(destination: string, duration: nat, interests: string, style: string): (p: string)
    ensures Contains(p, Decimal(duration)) && Contains(p, destination) && Contains(p, interests) && Contains(p, style)
  {
    var pieces := PromptPieces(destination, duration, interests, style);
    assert pieces[1] == Decimal(duration) && pieces[3] == destination && pieces[5] == interests && pieces[7] == style;
    Concat(pieces)
  }

  /** One browser session of the basic page. */
  class BasicSession {
    var history: seq<Record>

    /** The history is only ever reset or extended by whole question/reply pairs. */
    ghost predicate Valid()
      reads this
    {
      Paired(history)
    }

    /** A new session starts with an empty history. */
    constructor ()
      ensures Valid() && history == []
    {
      history := [];
    }

    /**
     The response generator, drained by the transcript: it yields the
     fragments and, only when the stream completes, records the turn.
     */
    method Respond(question: string, context: seq<Record>, model: Option<Remote>)
      returns (fragments: seq<string>)
      requires Valid()
      modifies this
      ensures Valid()
      ensures TurnResult(fragments, history) == Turn(model, NotReadyMessage, question, context, old(history))
    {
      if model.None? {
        fragments := [NotReadyMessage];
        return;
      }
      var stream := model.value(context, question);
      var reply;
      fragments, reply := StreamReply(stream.chunks);
      match stream.ending {
        case Completed =>
          PairedAppend(history, question, reply);
          history := history + [Record(User, question), Record(Model, reply)];
        case Raised(e) =>
          fragments := fragments + [ErrorFragment(e)];
      }
    }

    /** "Clear Conversation". */
    method Clear()
      modifies this
      ensures Valid() && history == []
    {
      history := [];
    }

    /**
     "Generate Itinerary": the form guards, then a fresh conversation whose
     only context is empty.
     */
    method Generate(destination: string, duration: nat, interests: string, style: string,
                    model: Option<Remote>) returns (outcome: Outcome)
      requires Valid()
      modifies this
      ensures Valid()
      ensures destination == "" || interests == "" ==>
        outcome == MissingFields && history == old(history)
      ensures destination != "" && interests != "" && model.None? ==>
        outcome == NotConfigured && history == old(history)
      ensures destination != "" && interests != "" && model.Some? ==>
        var prompt := ModelPrompt(destination, duration, interests, style);
        var t := Turn(model, NotReadyMessage, prompt, [], []);
        && outcome == Streamed(t.fragments) && history == t.history
        && (model.value([], prompt).ending == Completed ==> |history| == 2 && history[0] == Record(User, prompt))
    {
      if destination == "" || interests == "" {
        outcome := MissingFields;
      } else if model.None? {
        outcome := NotConfigured;
      } else {
        history := [];
        var prompt := ModelPrompt(destination, duration, interests, style);
        var fragments := Respond(prompt, [], model);
        outcome := Streamed(fragments);
      }
    }

    /**
     A follow-up question from the chat box (an empty query means nothing was
     submitted): refused while there is no itinerary, otherwise sent with the
     existing history as context.
     */
    method FollowUp(query: string, model: Option<Remote>) returns (outcome: Outcome)
      requires Valid()
      modifies this
      ensures Valid()
      ensures query == "" ==> outcome == Idle && history == old(history)
      ensures query != "" && old(history) == [] ==> outcome == NoItinerary && history == old(history)
      ensures query != "" && old(history) != [] && model.None? ==>
        outcome == NotConfigured && history == old(history)
      ensures query != "" && old(history) != [] && model.Some? ==>
        var t := Turn(model, NotReadyMessage, query, old(history), old(history));
        outcome == Streamed(t.fragments) && history == t.history
    {
      if query == "" {
        outcome := Idle;
      } else if history == [] {
        outcome := NoItinerary;
      } else if model.None? {
        outcome := NotConfigured;
      } else {
        var fragments := Respond(query, history, model);
        outcome := Streamed(fragments);
      }
    }
  }
}
