/** The `AIChat` component of index.tsx: a chat log that the assistant's reply
    streams into. Its state is the message log, the `isLoading` flag (which also
    disables the input and the send button), the input text, and whether the
    chat session exists yet. Every call of `handleSendMessage` that gets past its
    guard keeps two locals of its own while it awaits the stream: the text
    received so far (`modelResponse`) and whether the next chunk is the first.
    Network calls become events: a chunk arrives, the stream ends, or the
    request fails. Each event is one atomic step. */
module StreamingChat {
  import opened Text
  import opened ChatLog

  /** One running call of `handleSendMessage`. */
  datatype Handler = Handler(request: string, response: string, first: bool, done: bool)

  datatype State = State(
    messages: seq<Message>,
    isLoading: bool,
    userInput: string,
    hasChat: bool,
    handlers: seq<Handler>)

  /** What the visitor and the network can do. `h` names a running call. */
  datatype Event =
    | Mounted
    | Typed(text: string)
    | Submitted
    | ChunkArrived(h: nat, chunk: string)
    | StreamEnded(h: nat)
    | Failed(h: nat)

  /** Before the mount effect has run: no session, no messages. */
  const Unmounted: State := State([], false, "", false, [])

  /** Facts every reachable state has: calls exist only once the session
      does, and once it does the log is never empty. */
  predicate Consistent(s: State)
  {
    (s.hasChat ==> |s.messages| > 0) && (|s.handlers| > 0 ==> s.hasChat)
  }

  /** Call `h` is still awaiting its stream. */
  predicate Active(s: State, h: nat)
  {
    h < |s.handlers| && !s.handlers[h].done
  }

  function Last(ms: seq<Message>): Message
    requires |ms| > 0
  {
    ms[|ms| - 1]
  }

  /** The mount effect: it creates the session and replaces the log by the
      greeting. It runs once. */
  function OnMount(s: State): (r: State)
    requires !s.hasChat
    ensures r.hasChat && r.messages == GreetingLog
    ensures r.isLoading == s.isLoading && r.userInput == s.userInput && r.handlers == s.handlers
  {
    s.(hasChat := true, messages := GreetingLog)
  }

  /** The guard of `handleSendMessage`. */
  predicate Accepts(s: State)
  {
    Trim(s.userInput) != "" && !s.isLoading && s.hasChat
  }

  /** A submit: refused, it changes nothing at all; accepted, it appends the
      visitor's turn with the input as typed (untrimmed), raises `isLoading`,
      clears the input and starts a call that will send that same text. */
  function OnSubmit(s: State): (r: State)
    ensures (r == s) <==> !Accepts(s)
    ensures Accepts(s) ==>
      |r.messages| == |s.messages| + 1 &&
      r.messages[..|s.messages|] == s.messages &&
      r.messages[|s.messages|] == Message(User, s.userInput) &&
      r.isLoading && r.userInput == "" && r.hasChat &&
      r.handlers == s.handlers + [Handler(s.userInput, "", true, false)]
  {
    if !Accepts(s) then s
    else
      s.(messages := s.messages + [Message(User, s.userInput)],
         isLoading := true,
         userInput := "",
         handlers := s.handlers + [Handler(s.userInput, "", true, false)])
  }

  /** A chunk reaches call `h`. The first one hides the typing indicator
      (`isLoading` drops) and appends one assistant message holding it; every
      later one adds to the call's running text and writes that text over the
      text of whatever message is last in the log, adding none. */
  function OnChunk(s: State, h: nat, chunk: string): (r: State)
    requires Consistent(s) && Active(s, h)
    ensures Consistent(r) && Active(r, h)
    ensures |r.handlers| == |s.handlers|
    ensures r.handlers[h] == s.handlers[h].(response := s.handlers[h].response + chunk, first := false)
    ensures forall g :: 0 <= g < |s.handlers| && g != h ==> r.handlers[g] == s.handlers[g]
    ensures r.userInput == s.userInput && r.hasChat == s.hasChat
    ensures s.handlers[h].first ==>
      !r.isLoading && r.messages == s.messages + [Message(Model, s.handlers[h].response + chunk)]
    ensures !s.handlers[h].first ==>
      r.isLoading == s.isLoading &&
      |r.messages| == |s.messages| &&
      r.messages[..|s.messages| - 1] == s.messages[..|s.messages| - 1] &&
      Last(r.messages) == Message(Last(s.messages).role, s.handlers[h].response + chunk)
  {
    var call := s.handlers[h];
    var text := call.response + chunk;
    var handlers := s.handlers[h := call.(response := text, first := false)];
    if call.first then
      s.(isLoading := false, messages := s.messages + [Message(Model, text)], handlers := handlers)
    else
      var n := |s.messages|;
      s.(messages := s.messages[n - 1 := s.messages[n - 1].(text := text)], handlers := handlers)
  }

  /** The stream of call `h` ends; its `finally` drops `isLoading`. */
  function OnStreamEnd(s: State, h: nat): (r: State)
    requires Consistent(s) && Active(s, h)
    ensures Consistent(r) && !Active(r, h) && !r.isLoading
    ensures r.messages == s.messages && r.userInput == s.userInput && r.hasChat == s.hasChat
    ensures |r.handlers| == |s.handlers|
    ensures forall g :: 0 <= g < |s.handlers| && g != h ==> r.handlers[g] == s.handlers[g]
  {
    s.(isLoading := false, handlers := s.handlers[h := s.handlers[h].(done := true)])
  }

  /** Call `h` fails, before its first chunk or during the stream: one apology
      is appended after everything already shown (a partial reply stays), and
      `finally` drops `isLoading`. */
  function OnError(s: State, h: nat): (r: State)
    requires Consistent(s) && Active(s, h)
    ensures Consistent(r) && !Active(r, h) && !r.isLoading
    ensures r.messages == s.messages + [Message(Model, Apology)]
    ensures r.userInput == s.userInput && r.hasChat == s.hasChat
    ensures |r.handlers| == |s.handlers|
    ensures forall g :: 0 <= g < |s.handlers| && g != h ==> r.handlers[g] == s.handlers[g]
  {
    s.(messages := s.messages + [Message(Model, Apology)],
       isLoading := false,
       handlers := s.handlers[h := s.handlers[h].(done := true)])
  }

  /** One event, as the page delivers it: the mount effect runs once, a
      disabled input takes no typing, and a stream delivers nothing after it
      has ended. Once the session exists, no event shortens the log or touches
      any message but the last. */
  function Step(s: State, e: Event): (r: State)
    requires Consistent(s)
    ensures Consistent(r)
    ensures s.hasChat ==>
      |s.messages| <= |r.messages| &&
      r.messages[..|s.messages| - 1] == s.messages[..|s.messages| - 1]
  {
    match e
    case Mounted => if s.hasChat then s else OnMount(s)
    case Typed(text) => if s.isLoading then s else s.(userInput := text)
    case Submitted => OnSubmit(s)
    case ChunkArrived(h, chunk) => if Active(s, h) then OnChunk(s, h, chunk) else s
    case StreamEnded(h) => if Active(s, h) then OnStreamEnd(s, h) else s
    case Failed(h) => if Active(s, h) then OnError(s, h) else s
  }

  function Run(s: State, events: seq<Event>): (r: State)
    requires Consistent(s)
    ensures Consistent(r)
  {
    if events == [] then s else Step(Run(s, events[..|events| - 1]), events[|events| - 1])
  }

  /** The chunks `chunks` reach call `h` one after another. */
  function Chunks(s: State, h: nat, chunks: seq<string>): (r: State)
    requires Consistent(s) && Active(s, h)
    ensures Consistent(r) && Active(r, h)
    ensures r.userInput == s.userInput && r.hasChat == s.hasChat && |r.handlers| == |s.handlers|
  {
    if chunks == [] then s
    else OnChunk(Chunks(s, h, chunks[..|chunks| - 1]), h, chunks[|chunks| - 1])
  }

  /** After mount the log is the greeting alone: one assistant message. */
  lemma MountShowsGreeting()
    ensures Run(Unmounted, [Mounted]).messages == [Message(Model, Greeting)]
    ensures Run(Unmounted, [Mounted]).hasChat && !Run(Unmounted, [Mounted]).isLoading
  {
    assert [Mounted][..0] == [];
  }

  /** A freshly started call that receives chunks c1..cn and nothing else in
      between: with n >= 1 the log has grown by exactly one assistant message
      whose text is c1 + ... + cn, and `isLoading` is down; with n = 0 nothing
      has changed. */
  lemma {:induction false} StreamAppendsOneReply(s: State, h: nat, request: string, chunks: seq<string>)
    requires Consistent(s) && h < |s.handlers| && s.handlers[h] == Handler(request, "", true, false)
    ensures chunks == [] ==> Chunks(s, h, chunks) == s
    ensures chunks != [] ==>
      Chunks(s, h, chunks).messages == s.messages + [Message(Model, Concat(chunks))] &&
      !Chunks(s, h, chunks).isLoading &&
      Chunks(s, h, chunks).handlers[h] == Handler(request, Concat(chunks), false, false)
  {
    if chunks != [] {
      var init := chunks[..|chunks| - 1];
      var c := chunks[|chunks| - 1];
      StreamAppendsOneReply(s, h, request, init);
      if init == [] {
        assert Concat(chunks) == Concat(init) + c;
      } else {
        var t := Chunks(s, h, init);
        var n := |t.messages|;
        assert t.messages == s.messages + [Message(Model, Concat(init))];
        assert Chunks(s, h, chunks).messages == t.messages[..n - 1] + [Message(Model, Concat(init) + c)];
        assert t.messages[..n - 1] == s.messages;
      }
    }
  }

  /** A failure after chunks c1..cn keeps the partial reply and appends one
      apology after it; with no chunk, the apology alone is appended. */
  lemma {:induction false} FailureKeepsPartialReply(s: State, h: nat, request: string, chunks: seq<string>)
    requires Consistent(s) && h < |s.handlers| && s.handlers[h] == Handler(request, "", true, false)
    ensures OnError(Chunks(s, h, chunks), h).messages ==
      s.messages + (if chunks == [] then [] else [Message(Model, Concat(chunks))]) + [Message(Model, Apology)]
  {
    StreamAppendsOneReply(s, h, request, chunks);
  }

  // Submitting during a stream. `isLoading` drops at the first chunk, which
  // also re-enables the input and the button, so a second submit is accepted
  // while the first call is still streaming. The first call's later chunks
  // then write over the last message of the log: the visitor's new turn.

  /** The concrete run: ask "a", receive "x", ask "b", receive "y" for the
      first question. The visitor's turn "b" now reads "xy". */
  lemma SubmitMidStreamOverwritesVisitorTurn()
    ensures
      var s1 := Step(Unmounted, Mounted);
      var s2 := Step(s1, Typed("a"));
      var s3 := Step(s2, Submitted);
      var s4 := Step(s3, ChunkArrived(0, "x"));
      var s5 := Step(s4, Typed("b"));
      var s6 := Step(s5, Submitted);
      var s7 := Step(s6, ChunkArrived(0, "y"));
      Active(s6, 0) && Active(s6, 1) &&
      s7.messages == [Message(Model, Greeting), Message(User, "a"), Message(Model, "x"), Message(User, "xy")]
  {
    FirstQuestionStreams();
    SecondQuestionAccepted();
    LateChunkLandsOnLast();
  }

  /** The greeting, the question "a", and the first chunk "x" of its reply. */
  lemma FirstQuestionStreams()
    ensures Step(Step(Step(Step(Unmounted, Mounted), Typed("a")), Submitted), ChunkArrived(0, "x")) ==
      State([Message(Model, Greeting), Message(User, "a"), Message(Model, "x")], false, "", true,
            [Handler("a", "x", false, false)])
  {
    var g := Message(Model, Greeting);
    var s1 := Step(Unmounted, Mounted);
    assert s1 == State([g], false, "", true, []);
    var s2 := Step(s1, Typed("a"));
    assert s2 == State([g], false, "a", true, []);
    assert Trim("a") != "" by { assert !IsWhitespace("a"[0]); }
    var s3 := Step(s2, Submitted);
    assert s3 == State([g, Message(User, "a")], true, "", true, [Handler("a", "", true, false)]);
    assert "" + "x" == "x";
  }

  /** With `isLoading` down, the question "b" is accepted while the first
      call is still active. */
  lemma SecondQuestionAccepted()
    ensures
      var s4 := State([Message(Model, Greeting), Message(User, "a"), Message(Model, "x")], false, "", true,
                      [Handler("a", "x", false, false)]);
      Step(Step(s4, Typed("b")), Submitted) ==
        State([Message(Model, Greeting), Message(User, "a"), Message(Model, "x"), Message(User, "b")], true, "", true,
              [Handler("a", "x", false, false), Handler("b", "", true, false)])
  {
    assert Trim("b") != "" by { assert !IsWhitespace("b"[0]); }
  }

  /** The first call's next chunk rewrites the last message: the turn "b". */
  lemma LateChunkLandsOnLast()
    ensures
      var g := Message(Model, Greeting);
      var s6 := State([g, Message(User, "a"), Message(Model, "x"), Message(User, "b")], true, "", true,
                      [Handler("a", "x", false, false), Handler("b", "", true, false)]);
      Step(s6, ChunkArrived(0, "y")).messages == [g, Message(User, "a"), Message(Model, "x"), Message(User, "xy")]
  {
    assert "x" + "y" == "xy";
  }


  /** No call is still awaiting its stream. */
  predicate NoActive(s: State)
  {
    forall g :: 0 <= g < |s.handlers| ==> s.handlers[g].done
  }

  /** The corrected submit: also refused while an earlier call is still
      receiving its reply, so at most one request is in flight. */
  function OnSubmitGuarded(s: State): (r: State)
    ensures (r == s) <==> !(Accepts(s) && NoActive(s))
    ensures Accepts(s) && NoActive(s) ==> r == OnSubmit(s)
  {
    if NoActive(s) then OnSubmit(s) else s
  }

  /** `Step` with the corrected submit. */
  function StepGuarded(s: State, e: Event): (r: State)
    requires Consistent(s)
    ensures Consistent(r)
  {
    if e.Submitted? then OnSubmitGuarded(s) else Step(s, e)
  }

  /** At most one call is active, and once it has received a chunk the last
      message of the log is its reply, holding all it has received. */
  ghost predicate RepliesOwnLast(s: State)
  {
    (forall g: nat, k: nat :: Active(s, g) && Active(s, k) ==> g == k) &&
    (forall g: nat :: Active(s, g) && !s.handlers[g].first ==>
      |s.messages| > 0 && Last(s.messages) == Message(Model, s.handlers[g].response))
  }

  /** With the corrected submit every event keeps `RepliesOwnLast`; it holds
      before mount, so it holds in every reachable state. */
  lemma GuardedStepKeepsRepliesOwnLast(s: State, e: Event)
    requires Consistent(s) && RepliesOwnLast(s)
    ensures RepliesOwnLast(StepGuarded(s, e))
  {
    var r := StepGuarded(s, e);
    match e
    case Mounted =>
    case Typed(_) =>
      assert r.handlers == s.handlers && r.messages == s.messages;
      forall g: nat | Active(r, g) ensures Active(s, g) { }
    case Submitted =>
      if Accepts(s) && NoActive(s) {
        forall g: nat | Active(r, g) ensures g == |s.handlers| && r.handlers[g].first { }
      }
    case ChunkArrived(h, _) =>
      if Active(s, h) {
        forall g: nat | Active(r, g) ensures g == h { assert Active(s, g); }
      }
    case StreamEnded(h) =>
      if Active(s, h) {
        forall g: nat | Active(r, g) ensures false { assert Active(s, g); }
      }
    case Failed(h) =>
      if Active(s, h) {
        forall g: nat | Active(r, g) ensures false { assert Active(s, g); }
      }
  }

  /** Under `RepliesOwnLast`, a later chunk rewrites the call's own assistant
      message: the log keeps its length and every earlier message, and the
      last one is an assistant message holding all chunks so far. */
  lemma LaterChunkRewritesOwnReply(s: State, h: nat, chunk: string)
    requires Consistent(s) && RepliesOwnLast(s) && Active(s, h) && !s.handlers[h].first
    ensures Last(s.messages).role == Model
    ensures OnChunk(s, h, chunk).messages ==
      s.messages[..|s.messages| - 1] + [Message(Model, s.handlers[h].response + chunk)]
  {
    var r := OnChunk(s, h, chunk);
    assert r.messages == r.messages[..|r.messages| - 1] + [Last(r.messages)];
  }

  /** The first call's reply, followed by the stream's own outcome. */
  datatype Outcome = Completed(chunks: seq<string>) | Aborted(chunks: seq<string>)

  /** The widget as a component: the state fields React holds, and one method
      per event. */
  class AIChat {
    var messages: seq<Message>
    var isLoading: bool
    var userInput: string
    var hasChat: bool
    var handlers: seq<Handler>

    function View(): State
      reads this
    {
      State(messages, isLoading, userInput, hasChat, handlers)
    }

    /** Before the mount effect: no session, an empty log, an empty input. */
    constructor ()
      ensures View() == Unmounted && Consistent(View())
    {
      messages := [];
      isLoading := false;
      userInput := "";
      hasChat := false;
      handlers := [];
    }

    /** The mount effect: create the session, show the greeting. */
    method Mount()
      requires !hasChat
      modifies this
      ensures View() == OnMount(old(View())) && Consistent(View())
    {
      hasChat := true;
      messages := [Message(Model, Greeting)];
    }

    /** The input's change handler; the input is disabled while loading. */
    method Input(text: string)
      requires Consistent(View())
      modifies this
      ensures View() == Step(old(View()), Typed(text))
    {
      if !isLoading {
        userInput := text;
      }
    }

    /** The guarded start of `handleSendMessage`. When accepted, the text the
        session is asked about is `request`, the input as typed. */
    method Submit() returns (accepted: bool, request: string)
      requires Consistent(View())
      modifies this
      ensures View() == OnSubmit(old(View())) && Consistent(View())
      ensures accepted == Accepts(old(View()))
      ensures accepted ==> request == old(userInput) && handlers[|handlers| - 1].request == request
    {
      ghost var expected := OnSubmit(View());
      accepted := Trim(userInput) != "" && !isLoading && hasChat;
      request := userInput;
      if accepted {
        messages := messages + [Message(User, userInput)];
        isLoading := true;
        userInput := "";
        handlers := handlers + [Handler(request, "", true, false)];
      }
      assert View() == expected;
    }

    /** One chunk of call `h`'s stream: one turn of its `for await` loop. */
    method Chunk(h: nat, chunk: string)
      requires Consistent(View()) && Active(View(), h)
      modifies this
      ensures View() == OnChunk(old(View()), h, chunk)
    {
      var call := handlers[h];
      var text := call.response + chunk;
      if call.first {
        isLoading := false;
        messages := messages + [Message(Model, text)];
      } else {
        var n := |messages|;
        messages := messages[n - 1 := messages[n - 1].(text := text)];
      }
      handlers := handlers[h := call.(response := text, first := false)];
    }

    /** The whole `for await` loop over a stream's chunks. */
    method ReceiveStream(h: nat, chunks: seq<string>)
      requires Consistent(View()) && Active(View(), h)
      modifies this
      ensures View() == Chunks(old(View()), h, chunks)
    {
      for i := 0 to |chunks|
        invariant Consistent(View()) && Active(View(), h)
        invariant View() == Chunks(old(View()), h, chunks[..i])
      {
        Chunk(h, chunks[i]);
        assert chunks[..i + 1][..i] == chunks[..i];
      }
      assert chunks[..|chunks|] == chunks;
    }

    /** The stream of call `h` has ended; `finally` runs. */
    method StreamEnd(h: nat)
      requires Consistent(View()) && Active(View(), h)
      modifies this
      ensures View() == OnStreamEnd(old(View()), h)
    {
      isLoading := false;
      handlers := handlers[h := handlers[h].(done := true)];
    }

    /** Call `h` has thrown; `catch` then `finally` run. */
    method Fail(h: nat)
      requires Consistent(View()) && Active(View(), h)
      modifies this
      ensures View() == OnError(old(View()), h)
    {
      messages := messages + [Message(Model, Apology)];
      isLoading := false;
      handlers := handlers[h := handlers[h].(done := true)];
    }

    /** `handleSendMessage` from start to finish with nothing else happening
        meanwhile: a refused submit changes nothing; an accepted one leaves the
        visitor's turn, then one reply holding all chunks when there were any,
        then the apology when the stream broke off; `isLoading` is down. */
    method HandleSendMessage(outcome: Outcome)
      requires Consistent(View())
      modifies this
      ensures !Accepts(old(View())) ==> View() == old(View())
      ensures Accepts(old(View())) ==>
        !isLoading && userInput == "" &&
        messages ==
          old(messages) + [Message(User, old(userInput))] +
          (if outcome.chunks == [] then [] else [Message(Model, Concat(outcome.chunks))]) +
          (if outcome.Aborted? then [Message(Model, Apology)] else [])
    {
      var accepted, request := Submit();
      if accepted {
        var h := |handlers| - 1;
        ghost var asked := messages;
        assert asked == old(messages) + [Message(User, old(userInput))];
        StreamAppendsOneReply(View(), h, request, outcome.chunks);
        ReceiveStream(h, outcome.chunks);
        ghost var replied := messages;
        assert replied == asked + (if outcome.chunks == [] then [] else [Message(Model, Concat(outcome.chunks))]);
        if outcome.Aborted? {
          Fail(h);
          assert messages == replied + [Message(Model, Apology)];
        } else {
          StreamEnd(h);
          assert messages == replied;
        }
      }
    }
  }
}
