/**
 The conversation store and one model turn, shared by both pages.

 The history is a sequence of {role, text} records (each page stores the
 text as the single element of a `parts` list). The hosted chat endpoint is
 abstracted as a total function from (context, question) to a finite stream:
 the chunks it delivers, each with or without text, and how the stream ends,
 either completely or by raising an exception with a message. A page without
 a configured model holds `None` instead of such a function.
 */
module Conversation {
  import opened Wrappers
  import opened Strings

  datatype Role = User | Model

  datatype Record = Record(role: Role, text: string)

  /** A streamed response chunk: one that carries a `text` attribute, or one that does not. */
  datatype Chunk = TextChunk(text: string) | NoText

  datatype Ending = Completed | Raised(error: string)

  datatype Stream = Stream(chunks: seq<Chunk>, ending: Ending)

  /** The remote chat endpoint: given the replayed history and a new message, the stream it answers with. */
  type Remote = (seq<Record>, string) -> Stream

  /** What one call of the response generator yields, and the history after it has been drained. */
  datatype TurnResult = TurnResult(fragments: seq<string>, history: seq<Record>)

  /** What a page's handler did with one user action. */
  datatype Outcome =
    | Idle                          // no query was submitted
    | MissingFields                 // destination or interests missing: warning shown
    | NotConfigured                 // no model: configuration error shown
    | NoItinerary                   // follow-up before any itinerary: warning shown
    | Streamed(fragments: seq<string>)  // the fragments written to the transcript

  /** The texts of the chunks that carry one, in stream order. */
  function Texts(chunks: seq<Chunk>): (r: seq<string>)
    ensures |r| <= |chunks|
    decreases |chunks|
  {
    if chunks == [] then []
    else
      (match chunks[0]
       case TextChunk(t) => [t]
       case NoText => []) + Texts(chunks[1..])
  }

  /** Filtering distributes over concatenation of streams. */
  lemma {:induction false} TextsAppend(a: seq<Chunk>, b: seq<Chunk>)
    ensures Texts(a + b) == Texts(a) + Texts(b)
    decreases |a|
  {
    if a == [] {
      assert a + b == b;
    } else {
      TextsAppend(a[1..], b);
      assert (a + b)[1..] == a[1..] + b;
    }
  }

  /** A chunk without text contributes nothing, wherever it stands. */
  lemma TextsSkipsNoText(a: seq<Chunk>, b: seq<Chunk>)
    ensures Texts(a + [NoText] + b) == Texts(a + b)
  {
    TextsAppend(a + [NoText], b);
    TextsAppend(a, [NoText]);
    TextsAppend(a, b);
    assert Texts([NoText]) == [] by { assert [NoText][1..] == []; }
  }

  /** A chunk with text contributes exactly its text, at its own position. */
  lemma TextsKeepsText(a: seq<Chunk>, t: string, b: seq<Chunk>)
    ensures Texts(a + [TextChunk(t)] + b) == Texts(a) + [t] + Texts(b)
  {
    TextsAppend(a + [TextChunk(t)], b);
    TextsAppend(a, [TextChunk(t)]);
    assert Texts([TextChunk(t)]) == [t] by { assert [TextChunk(t)][1..] == []; }
  }

  /** The fragment yielded when the remote call raises. */
  function ErrorFragment(error: string): (r: string)
    ensures Contains(r, error)
  {
    ContainsMiddle("Sorry, I encountered an error: ", error, "");
    assert "Sorry, I encountered an error: " + error + "" == "Sorry, I encountered an error: " + error;
    "Sorry, I encountered an error: " + error
  }

  /** The role a record must have at position `i` of a well-formed history. */
  function ExpectedRole(i: nat): Role
  {
    if i % 2 == 0 then User else Model
  }

  /** A history made of (user question, model reply) pairs. */
  predicate Paired(h: seq<Record>)
    decreases |h|
  {
    h == [] || (|h| >= 2 && h[0].role == User && h[1].role == Model && Paired(h[2..]))
  }

  /** Appending one question/reply pair keeps a history paired. */
  lemma {:induction false} PairedAppend(h: seq<Record>, question: string, reply: string)
    requires Paired(h)
    ensures Paired(h + [Record(User, question), Record(Model, reply)])
    decreases |h|
  {
    var pair := [Record(User, question), Record(Model, reply)];
    if h == [] {
      assert h + pair == pair;
      assert pair[2..] == [];
    } else {
      PairedAppend(h[2..], question, reply);
      assert (h + pair)[2..] == h[2..] + pair;
    }
  }

  /** A paired history has even length, with `user` at even and `model` at odd positions. */
  lemma {:induction false} PairedRoles(h: seq<Record>)
    requires Paired(h)
    ensures |h| % 2 == 0 && forall i :: 0 <= i < |h| ==> h[i].role == ExpectedRole(i)
    decreases |h|
  {
    if h != [] {
      var t := h[2..];
      PairedRoles(t);
      forall i | 2 <= i < |h| ensures h[i].role == ExpectedRole(i) {
        assert h[i] == t[i - 2];
      }
    }
  }

  /** An even-length history with `user` at even and `model` at odd positions is paired. */
  lemma {:induction false} RolesPaired(h: seq<Record>)
    requires |h| % 2 == 0 && forall i :: 0 <= i < |h| ==> h[i].role == ExpectedRole(i)
    ensures Paired(h)
    decreases |h|
  {
    if h != [] {
      var t := h[2..];
      forall j | 0 <= j < |t| ensures t[j].role == ExpectedRole(j) {
        assert t[j] == h[j + 2];
      }
      RolesPaired(t);
      assert h[0].role == ExpectedRole(0) && h[1].role == ExpectedRole(1);
    }
  }

  /** Paired histories are exactly those of even length with `user` at even and `model` at odd positions. */
  lemma {:induction false} PairedByIndex(h: seq<Record>)
    ensures Paired(h) <==> (|h| % 2 == 0 && forall i :: 0 <= i < |h| ==> h[i].role == ExpectedRole(i))
  {
    if Paired(h) {
      PairedRoles(h);
    } else if |h| % 2 == 0 && forall i :: 0 <= i < |h| ==> h[i].role == ExpectedRole(i) {
      RolesPaired(h);
    }
  }

  /**
   One call of the response generator, drained to the end.
   Without a model it yields one explanatory fragment. Otherwise it yields the
   text of every chunk that has one; if the stream completes it appends the
   question and the concatenated reply, and if the stream raises it yields one
   more, diagnostic, fragment and appends nothing.
   */
  function Turn(model: Option<Remote>, notReady: string, question: string,
                context: seq<Record>, history: seq<Record>): (r: TurnResult)
    ensures r.history == history || (|r.history| == |history| + 2 && r.history[..|history|] == history)
    ensures model.None? ==> |r.fragments| == 1
  {
    match model
    case None => TurnResult([notReady], history)
    case Some(remote) =>
      var stream := remote(context, question);
      var texts := Texts(stream.chunks);
      match stream.ending
      case Completed => TurnResult(texts, history + [Record(User, question), Record(Model, Concat(texts))])
      case Raised(e) => TurnResult(texts + [ErrorFragment(e)], history)
  }

  /** With no model a turn yields exactly the explanatory fragment and leaves the history alone. */
  lemma TurnWithoutModel(notReady: string, question: string, context: seq<Record>, history: seq<Record>)
    ensures Turn(None, notReady, question, context, history) == TurnResult([notReady], history)
  {
  }

  /**
   A completed stream grows the history by exactly two records: the question,
   then a reply that is the concatenation of everything yielded.
   */
  lemma TurnCommitsPair(remote: Remote, notReady: string, question: string,
                        context: seq<Record>, history: seq<Record>)
    requires remote(context, question).ending == Completed
    ensures var r := Turn(Some(remote), notReady, question, context, history);
      && r.fragments == Texts(remote(context, question).chunks)
      && |r.history| == |history| + 2
      && r.history[..|history|] == history
      && r.history[|history|] == Record(User, question)
      && r.history[|history| + 1] == Record(Model, Concat(r.fragments))
  {
    var r := Turn(Some(remote), notReady, question, context, history);
    assert r.history == history + [Record(User, question), Record(Model, Concat(r.fragments))];
  }

  /**
   A stream that raises, even after some fragments were shown, leaves the
   history as it was; the fragments shown are the partial texts followed by
   one diagnostic naming the error.
   */
  lemma TurnFailureCommitsNothing(remote: Remote, notReady: string, question: string,
                                  context: seq<Record>, history: seq<Record>)
    requires remote(context, question).ending.Raised?
    ensures var r := Turn(Some(remote), notReady, question, context, history);
      && r.history == history
      && |r.fragments| >= 1
      && r.fragments[..|r.fragments| - 1] == Texts(remote(context, question).chunks)
      && Contains(r.fragments[|r.fragments| - 1], remote(context, question).ending.error)
  {
    var r := Turn(Some(remote), notReady, question, context, history);
    assert r.fragments[..|r.fragments| - 1] == Texts(remote(context, question).chunks);
  }

  /** Every turn keeps the history a sequence of question/reply pairs. */
  lemma TurnKeepsPaired(model: Option<Remote>, notReady: string, question: string,
                        context: seq<Record>, history: seq<Record>)
    requires Paired(history)
    ensures Paired(Turn(model, notReady, question, context, history).history)
  {
    if model.Some? {
      var stream := model.value(context, question);
      if stream.ending.Completed? {
        PairedAppend(history, question, Concat(Texts(stream.chunks)));
      }
    }
  }

  /**
   The accumulating loop of the response generator: walks the chunks in order,
   yields the text of each chunk that has one and accumulates the full reply.
   */
  method StreamReply(chunks: seq<Chunk>) returns (fragments: seq<string>, reply: string)
    ensures fragments == Texts(chunks)
    ensures reply == Concat(fragments)
  {
    fragments, reply := [], "";
    var i := 0;
    while i < |chunks|
      invariant i <= |chunks|
      invariant fragments == Texts(chunks[..i])
      invariant reply == Concat(fragments)
    {
      assert chunks[..i + 1] == chunks[..i] + [chunks[i]];
      TextsAppend(chunks[..i], [chunks[i]]);
      assert [chunks[i]][1..] == [];
      if chunks[i].TextChunk? {
        var t := chunks[i].text;
        ConcatAppend(fragments, [t]);
        assert [t][1..] == [];
        fragments := fragments + [t];
        reply := reply + t;
      }
      i := i + 1;
    }
    assert chunks[..i] == chunks;
  }
}
