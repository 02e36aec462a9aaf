/**
 The extended planner page (tour1.py). Besides the chat history its session
 keeps the current trip, a list of saved itinerary snapshots, running trip
 statistics and a queued quick action. Interest labels carry an emoji prefix
 that is stripped before they are stored or sent to the model.
 */
module TourPro {
  import opened Wrappers
  import opened Strings
  import opened Conversation

  /** The fragment yielded when no model is configured. */
  const NotReadyMessage: string := "\U{274C} Error: Gemini model is not initialized. Please check your API key."

  /** The query texts behind the quick-action buttons. */
  const QuickActionTexts: seq<string> := [
    "Suggest budget-friendly activities",
    "Recommend local restaurants",
    "Find accommodation options",
    "Plan transportation",
    "Best photo spots",
    "Create packing list",
    "Weather considerations"
  ]

  /** The form fields a freshly generated trip records beyond the four a snapshot keeps. */
  datatype Extras = Extras(budget: string, travelers: nat, accommodation: string)

  /** `current_trip`; a trip restored from a snapshot has no extras. */
  datatype Trip = Trip(destination: string, duration: nat, interests: string, style: string,
                       extras: Option<Extras>)

  /** One entry of `saved_itineraries`. */
  datatype Snapshot = Snapshot(destination: string, duration: nat, interests: string, style: string,
                               timestamp: string, history: seq<Record>)

  /** The document offered for download, before it is rendered as JSON. */
  datatype ExportData = ExportData(tripDetails: Option<Trip>, chatHistory: seq<Record>, exportedAt: string)

  /** The position of the first space in `s`, if any. */
  function FirstSpace(s: string): (r: Option<nat>)
    ensures r.Some? ==> r.value < |s| && s[r.value] == ' ' && ' ' !in s[..r.value]
    ensures r.None? <==> ' ' !in s
    decreases |s|
  {
    if s == [] then None
    else if s[0] == ' ' then Some(0)
    else
      match FirstSpace(s[1..])
      case None => None
      case Some(k) =>
        assert s[..k + 1] == [s[0]] + s[1..][..k];
        Some(k + 1)
  }

  /**
   Strips the emoji prefix of an interest label: the text after the first
   space, or the whole label when it has none. The result is a suffix of the label.
   */
  function CleanInterest(interest: string): (r: string)
    ensures |r| <= |interest| && r == interest[|interest| - |r|..]
  {
    match FirstSpace(interest)
    case None => interest
    case Some(k) => interest[k + 1..]
  }

  /** A label built as a space-free prefix, a space and a text cleans to that text. */
  lemma CleanInterestStripsPrefix(head: string, rest: string)
    requires ' ' !in head
    ensures CleanInterest(head + " " + rest) == rest
  {
    var interest := head + " " + rest;
    assert interest[..|head|] == head;
    assert interest[|head|] == ' ';
    assert interest[|head| + 1..] == rest;
  }

  /** A label without a space is kept as it is. */
  lemma CleanInterestWithoutSpace(interest: string)
    requires ' ' !in interest
    ensures CleanInterest(interest) == interest
  {
  }

  function CleanInterests(labels: seq<string>): seq<string>
  {
    seq(|labels|, i requires 0 <= i < |labels| => CleanInterest(labels[i]))
  }

  /**
   The interests as stored in the trip and sent to the model: the cleaned
   labels joined by ", ". Every selected interest, cleaned, appears in it.
   */
  function InterestsText(labels: seq<string>): (r: string)
    ensures forall i :: 0 <= i < |labels| ==> Contains(r, CleanInterest(labels[i]))
  {
    var cleaned := CleanInterests(labels);
    assert forall i :: 0 <= i < |labels| ==> Contains(Join(cleaned, ", "), CleanInterest(labels[i])) by {
      forall i | 0 <= i < |labels| ensures Contains(Join(cleaned, ", "), CleanInterest(labels[i])) {
        JoinContains(cleaned, ", ", i);
      }
    }
    Join(cleaned, ", ")
  }

  /** Python's `prefs if prefs else "None"`. */
  function OrNone(s: string): string
  {
    if s == "" then "None" else s
  }

  /** The summary of the form shown in the transcript (never sent to the model), as pieces. */
  function DisplayPieces(destination: string, duration: nat, travelers: nat, budget: string, interests: string,
                         style: string, accommodation: string, additional: string): seq<string>
  {
    [ "\n**\U{1F5FA}\U{FE0F} Planning your ", Decimal(duration), "-day adventure to ", destination,
      "!**\n\n**Trip Details:**\n- \U{1F4CD} **Destination:** ", destination,
      "\n- \U{23F3} **Duration:** ", Decimal(duration),
      " days\n- \U{1F4B0} **Budget:** ", budget,
      "\n- \U{1F465} **Travelers:** ", Decimal(travelers),
      " person(s)\n- \U{1F3A8} **Interests:** ", interests,
      "\n- \U{2708}\U{FE0F} **Travel Style:** ", style,
      "\n- \U{1F3E8} **Accommodation:** ", accommodation,
      "\n- \U{270D}\U{FE0F} **Additional Preferences:** ", OrNone(additional),
      "\n" ]
  }

  /** The summary restates every form field. */
  function DisplaySummary(destination: string, duration: nat, travelers: nat, budget: string, interests: string,
                          style: string, accommodation: string, additional: string): (s: string)
    ensures Contains(s, destination) && Contains(s, Decimal(duration))
    ensures Contains(s, budget) && Contains(s, Decimal(travelers))
    ensures Contains(s, interests) && Contains(s, style)
    ensures Contains(s, accommodation) && Contains(s, OrNone(additional))
  {
    var pieces := DisplayPieces(destination, duration, travelers, budget, interests, style, accommodation, additional);
    assert pieces[5] == destination && pieces[7] == Decimal(duration);
    assert pieces[9] == budget && pieces[11] == Decimal(travelers);
    assert pieces[13] == interests && pieces[15] == style;
    assert pieces[17] == accommodation && pieces[19] == OrNone(additional);
    Concat(pieces)
  }

  /** The fixed closing part of the itinerary instruction: the ten numbered requirements. */
  const ItineraryRequest: string :=
    "\n\nCreate a detailed day-by-day itinerary that includes:\n"
    + "1. Daily activities with specific timings\n"
    + "2. Recommended restaurants for each meal\n"
    + "3. Transportation options between locations\n"
    + "4. Estimated costs for activities and meals\n"
    + "5. Cultural tips and local insights\n"
    + "6. Hidden gems and local favorites\n"
    + "7. Best times to visit attractions\n"
    + "8. Photography opportunities\n"
    + "9. Weather considerations\n"
    + "10. Packing suggestions\n\n"
    + "Make it engaging, practical, and easy to follow. Use emojis and clear formatting."

  /** The instruction sent to the model for a new itinerary, as pieces. */
  function PromptPieces(destination: string, duration: nat, travelers: nat, budget: string, interests: string,
                        style: string, accommodation: string, additional: string): seq<string>
  {
    [ "Plan a comprehensive ", Decimal(duration), "-day trip to ", destination,
      " for ", Decimal(travelers), " traveler(s) with a ", budget,
      " budget.\n\nTravel Interests: ", interests,
      "\nTravel Style: ", style,
      "\nAccommodation Preference: ", accommodation,
      "\nAdditional Preferences: ", OrNone(additional),
      ItineraryRequest ]
  }

  /** The model prompt restates every form field. */
  function ModelPrompt(destination: string, duration: nat, travelers: nat, budget: string, interests: string,
                       style: string, accommodation: string, additional: string): (p: string)
    ensures Contains(p, Decimal(duration)) && Contains(p, destination)
    ensures Contains(p, Decimal(travelers)) && Contains(p, budget)
    ensures Contains(p, interests) && Contains(p, style)
    ensures Contains(p, accommodation) && Contains(p, OrNone(additional))
  {
    var pieces := PromptPieces(destination, duration, travelers, budget, interests, style, accommodation, additional);
    assert pieces[1] == Decimal(duration) && pieces[3] == destination;
    assert pieces[5] == Decimal(travelers) && pieces[7] == budget;
    assert pieces[9] == interests && pieces[11] == style;
    assert pieces[13] == accommodation && pieces[15] == OrNone(additional);
    Concat(pieces)
  }

  /** Every selected interest, with its emoji prefix stripped, reaches the model. */
  lemma ModelPromptMentionsEachInterest(destination: string, duration: nat, travelers: nat, budget: string,
                                        labels: seq<string>, style: string, accommodation: string,
                                        additional: string, i: nat)
    requires i < |labels|
    ensures Contains(ModelPrompt(destination, duration, travelers, budget, InterestsText(labels), style,
                                 accommodation, additional),
                     CleanInterest(labels[i]))
  {
    ContainsTrans(ModelPrompt(destination, duration, travelers, budget, InterestsText(labels), style,
                              accommodation, additional),
                  InterestsText(labels), CleanInterest(labels[i]));
  }

  /** No entry occurs twice. */
  predicate Distinct(s: seq<string>)
  {
    forall i, j :: 0 <= i < j < |s| ==> s[i] != s[j]
  }

  /** The destinations list after recording a trip: the destination is appended unless already listed. */
  function WithDestination(destinations: seq<string>, destination: string): (r: seq<string>)
    ensures destination in r
    ensures forall d :: d in r <==> d in destinations || d == destination
    ensures |r| <= |destinations| + 1
  {
    if destination in destinations then destinations else destinations + [destination]
  }

  /** Recording a trip of at least one day keeps the statistics consistent. */
  lemma RecordTripKeepsStats(destinations: seq<string>, destination: string,
                             totalTrips: nat, totalDays: nat, duration: nat)
    requires Distinct(destinations) && |destinations| <= totalTrips <= totalDays
    requires duration >= 1
    ensures Distinct(WithDestination(destinations, destination))
    ensures |WithDestination(destinations, destination)| <= totalTrips + 1 <= totalDays + duration
  {
    if destination !in destinations {
      var r := destinations + [destination];
      forall i, j | 0 <= i < j < |r| ensures r[i] != r[j] {
        if j == |destinations| {
          assert r[i] == destinations[i];
        }
      }
    }
  }

  /** One browser session of the extended page. */
  class ProSession {
    var history: seq<Record>
    var saved: seq<Snapshot>
    var currentTrip: Option<Trip>
    var totalTrips: nat
    var totalDays: nat
    var destinations: seq<string>
    var quickAction: Option<string>

    /**
     The active and every saved history are made of question/reply pairs; the
     destinations list has no duplicates; every trip adds at most one
     destination and at least one day.
     */
    ghost predicate Valid()
      reads this
    {
      && Paired(history)
      && (forall k :: 0 <= k < |saved| ==> Paired(saved[k].history))
      && Distinct(destinations)
      && |destinations| <= totalTrips <= totalDays
    }

    /** The session state a first run initialises. */
    constructor ()
      ensures Valid()
      ensures history == [] && saved == [] && currentTrip == None
      ensures totalTrips == 0 && totalDays == 0 && destinations == [] && quickAction == None
    {
      history, saved, currentTrip := [], [], None;
      totalTrips, totalDays, destinations := 0, 0, [];
      quickAction := None;
    }

    /**
     The response generator, drained by the transcript: it yields the
     fragments and, only when the stream completes, records the turn.
     */
    method Respond(question: string, context: seq<Record>, model: Option<Remote>)
      returns (fragments: seq<string>)
      requires Valid()
      modifies this`history
      ensures Valid()
      ensures TurnResult(fragments, history) == Turn(model, NotReadyMessage, question, context, old(history))
    {
      if model.None? {
        fragments := [NotReadyMessage];
        return;
      }
      var stream := model.value(context, question);
      var reply;
      fragments, reply := StreamReply(stream.chunks);
      match stream.ending {
        case Completed =>
          PairedAppend(history, question, reply);
          history := history + [Record(User, question), Record(Model, reply)];
        case Raised(e) =>
          fragments := fragments + [ErrorFragment(e)];
      }
    }

    /** Appends a snapshot of the trip fields and a copy of the current history. */
    method SaveItinerary(destination: string, duration: nat, interests: string, style: string, now: string)
      requires Valid()
      modifies this`saved
      ensures Valid()
      ensures saved == old(saved) + [Snapshot(destination, duration, interests, style, now, history)]
    {
      saved := saved + [Snapshot(destination, duration, interests, style, now, history)];
    }

    /** The export document: the current trip, the full history and the export time. */
    function Export(now: string): (r: ExportData)
      reads this
      requires Valid()
      ensures Paired(r.chatHistory)
      ensures r.tripDetails == currentTrip && r.chatHistory == history && r.exportedAt == now
    {
      ExportData(currentTrip, history, now)
    }

    /** Restores the history and the trip of a saved snapshot; the snapshot list itself is kept. */
    method LoadSavedItinerary(index: nat)
      requires Valid()
      requires index < |saved|
      modifies this`history, this`currentTrip
      ensures Valid()
      ensures history == saved[index].history
      ensures currentTrip == Some(Trip(saved[index].destination, saved[index].duration,
                                       saved[index].interests, saved[index].style, None))
      ensures forall now :: Export(now) == ExportData(currentTrip, saved[index].history, now)
    {
      var s := saved[index];
      history := s.history;
      currentTrip := Some(Trip(s.destination, s.duration, s.interests, s.style, None));
    }

    /** "Clear Chat": empties the history and keeps the current trip. */
    method Clear()
      requires Valid()
      modifies this`history
      ensures Valid() && history == []
    {
      history := [];
    }

    /** "Save Trip": saves a snapshot only when there is a current trip. */
    method SaveTrip(now: string)
      requires Valid()
      modifies this`saved
      ensures Valid()
      ensures currentTrip.None? ==> saved == old(saved)
      ensures currentTrip.Some? ==>
        var t := currentTrip.value;
        saved == old(saved) + [Snapshot(t.destination, t.duration, t.interests, t.style, now, history)]
    {
      if currentTrip.Some? {
        var t := currentTrip.value;
        SaveItinerary(t.destination, t.duration, t.interests, t.style, now);
      }
    }

    /** A quick-action button queues its query for the follow-up handler. */
    method QueueQuickAction(action: string)
      requires Valid()
      requires action in QuickActionTexts
      modifies this`quickAction
      ensures Valid() && quickAction == Some(action)
    {
      quickAction := Some(action);
    }

    /**
     The state changes of a new itinerary request, made before the model is
     asked: the history is cleared, the trip recorded and the statistics updated.
     */
    method RecordTrip(trip: Trip)
      requires Valid()
      requires trip.duration >= 1
      modifies this`history, this`currentTrip, this`totalTrips, this`totalDays, this`destinations
      ensures Valid()
      ensures history == [] && currentTrip == Some(trip)
      ensures totalTrips == old(totalTrips) + 1 && totalDays == old(totalDays) + trip.duration
      ensures destinations == WithDestination(old(destinations), trip.destination)
    {
      RecordTripKeepsStats(destinations, trip.destination, totalTrips, totalDays, trip.duration);
      history := [];
      currentTrip := Some(trip);
      totalTrips := totalTrips + 1;
      totalDays := totalDays + trip.duration;
      if trip.destination !in destinations {
        destinations := destinations + [trip.destination];
      }
    }

    /**
     "Generate Itinerary": the form guards; then the history is reset, the
     trip recorded and the statistics updated before the model is asked,
     with empty context, for the itinerary.
     */
    method Generate(destination: string, duration: nat, budget: string, travelers: nat,
                    interests: seq<string>, additional: string, style: string, accommodation: string,
                    model: Option<Remote>) returns (outcome: Outcome)
      requires Valid()
      requires 1 <= duration <= 30
      modifies this`history, this`currentTrip, this`totalTrips, this`totalDays, this`destinations
      ensures Valid()
      ensures totalTrips >= old(totalTrips) && totalDays >= old(totalDays)
      ensures destination == "" || interests == [] || model.None? ==>
        && outcome == (if destination == "" || interests == [] then MissingFields else NotConfigured)
        && history == old(history) && currentTrip == old(currentTrip)
        && totalTrips == old(totalTrips) && totalDays == old(totalDays) && destinations == old(destinations)
      ensures destination != "" && interests != [] && model.Some? ==>
        && currentTrip == Some(Trip(destination, duration, InterestsText(interests), style,
                                    Some(Extras(budget, travelers, accommodation))))
        && totalTrips == old(totalTrips) + 1
        && totalDays == old(totalDays) + duration
        && destination in destinations
        && destinations == WithDestination(old(destinations), destination)
        && var prompt := ModelPrompt(destination, duration, travelers, budget, InterestsText(interests),
                                     style, accommodation, additional);
           var t := Turn(model, NotReadyMessage, prompt, [], []);
           outcome == Streamed(t.fragments) && history == t.history
    {
      if destination == "" || interests == [] {
        outcome := MissingFields;
        return;
      }
      if model.None? {
        outcome := NotConfigured;
        return;
      }
      var interestsText := InterestsText(interests);
      RecordTrip(Trip(destination, duration, interestsText, style, Some(Extras(budget, travelers, accommodation))));
      var prompt := ModelPrompt(destination, duration, travelers, budget, interestsText,
                                style, accommodation, additional);
      var fragments := Respond(prompt, [], model);
      outcome := Streamed(fragments);
    }

    /**
     A follow-up run: a queued quick action replaces the typed query and is
     consumed; an empty query does nothing; without an itinerary the query is
     refused; otherwise it is sent with the current history as context.
     */
    method FollowUp(typed: string, model: Option<Remote>) returns (outcome: Outcome)
      requires Valid()
      modifies this`history, this`quickAction
      ensures Valid() && quickAction == None
      ensures var query := if old(quickAction).Some? then old(quickAction).value else typed;
        && (query == "" ==> outcome == Idle && history == old(history))
        && (query != "" && old(history) == [] ==> outcome == NoItinerary && history == old(history))
        && (query != "" && old(history) != [] && model.None? ==>
              outcome == NotConfigured && history == old(history))
        && (query != "" && old(history) != [] && model.Some? ==>
              var t := Turn(model, NotReadyMessage, query, old(history), old(history));
              outcome == Streamed(t.fragments) && history == t.history)
    {
      var query := typed;
      if quickAction.Some? {
        query := quickAction.value;
        quickAction := None;
      }
      if query == "" {
        outcome := Idle;
      } else if history == [] {
        outcome := NoItinerary;
      } else if model.None? {
        outcome := NotConfigured;
      } else {
        var fragments := Respond(query, history, model);
        outcome := Streamed(fragments);
      }
    }
  }
}
