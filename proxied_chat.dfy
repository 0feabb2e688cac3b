/** The chat widget of js/main.js, for pages served without the React bundle.
    It keeps an append-only `messages` array and two `disabled` flags, one on
    the text input and one on the send button. A submit posts the trimmed
    message together with the earlier log to the site's own endpoint and
    appends exactly one reply: the returned text, or the apology when the
    request fails. The request becomes an event carrying its outcome. */
module ProxiedChat {
  import opened Text
  import opened ChatLog
  import opened Wrappers

  /** What a submit posts: the message and the log as it stood before it. */
  datatype Request = Request(message: string, history: seq<Message>)

  /** How a request ends: an HTTP response (`ok` is false for a non-2xx
      status), or a thrown error (network failure, unreadable body). */
  datatype Outcome = Response(ok: bool, text: string) | Thrown

  /** `inFlight` counts requests whose outcome has not arrived. */
  datatype State = State(
    messages: seq<Message>,
    inputValue: string,
    inputDisabled: bool,
    buttonDisabled: bool,
    inFlight: nat)

  datatype Event = Typed(text: string) | Submitted | Resolved(outcome: Outcome)

  /** The widget as the page sets it up: the greeting alone, controls enabled. */
  const Started: State := State(GreetingLog, "", false, false, 0)

  /** The submit handler up to the request. A blank input (after trimming)
      returns at once and changes nothing. Otherwise it appends one visitor
      turn holding the trimmed text, clears the input, disables both controls
      and posts a request whose history is the log as it was before this
      turn. */
  function OnSubmit(s: State): (r: (State, Option<Request>))
    ensures r.1.None? <==> Trim(s.inputValue) == ""
    ensures r.1.None? ==> r.0 == s
    ensures r.1.Some? ==>
      r.0.messages == s.messages + [Message(User, Trim(s.inputValue))] &&
      r.1.value == Request(Trim(s.inputValue), s.messages) &&
      r.0.inputValue == "" && r.0.inputDisabled && r.0.buttonDisabled &&
      r.0.inFlight == s.inFlight + 1
  {
    var userInput := Trim(s.inputValue);
    if userInput == "" then (s, None)
    else
      var messages := s.messages + [Message(User, userInput)];
      var history := messages[..|messages| - 1];
      (s.(messages := messages, inputValue := "", inputDisabled := true, buttonDisabled := true,
          inFlight := s.inFlight + 1),
       Some(Request(userInput, history)))
  }

  /** The reply a request's outcome puts in the log. */
  function ReplyText(o: Outcome): string
  {
    if o.Response? && o.ok then o.text else Apology
  }

  /** The rest of the submit handler, once the outcome is known: exactly one
      assistant message is appended, the returned text for an OK response and
      the apology for a non-OK status or a thrown error, and `finally`
      re-enables both controls. */
  function OnResolve(s: State, o: Outcome): (r: State)
    requires s.inFlight > 0
    ensures |r.messages| == |s.messages| + 1 && r.messages[..|s.messages|] == s.messages
    ensures r.messages[|s.messages|].role == Model
    ensures o.Response? && o.ok ==> r.messages[|s.messages|].text == o.text
    ensures !(o.Response? && o.ok) ==> r.messages[|s.messages|].text == Apology
    ensures !r.inputDisabled && !r.buttonDisabled
    ensures r.inputValue == s.inputValue && r.inFlight == s.inFlight - 1
  {
    s.(messages := s.messages + [Message(Model, ReplyText(o))],
       inputDisabled := false, buttonDisabled := false, inFlight := s.inFlight - 1)
  }

  /** One event as the page delivers it: a disabled input takes no typing, a
      form whose input and button are both disabled cannot be submitted, and
      an outcome arrives only for a request in flight. No event removes or
      changes a message already in the log. */
  function Step(s: State, e: Event): (r: State)
    ensures s.messages <= r.messages
  {
    match e
    case Typed(text) => if s.inputDisabled then s else s.(inputValue := text)
    case Submitted => if s.inputDisabled && s.buttonDisabled then s else OnSubmit(s).0
    case Resolved(o) => if s.inFlight > 0 then OnResolve(s, o) else s
  }

  function Run(s: State, events: seq<Event>): State
  {
    if events == [] then s else Step(Run(s, events[..|events| - 1]), events[|events| - 1])
  }

  /** What holds between events: the greeting opens the log, both controls
      are disabled exactly while a request is in flight, and at most one is. */
  predicate Settled(s: State)
  {
    |s.messages| > 0 && s.messages[0] == Message(Model, Greeting) &&
    s.inputDisabled == s.buttonDisabled &&
    (s.inFlight > 0 <==> s.inputDisabled) &&
    s.inFlight <= 1
  }

  lemma StepKeepsSettled(s: State, e: Event)
    requires Settled(s)
    ensures Settled(Step(s, e))
  {
  }

  /** Every sequence of events from the start keeps the widget settled and
      only ever appends to the log. */
  lemma {:induction false} RunKeepsSettled(events: seq<Event>)
    ensures Settled(Run(Started, events))
    ensures GreetingLog <= Run(Started, events).messages
  {
    if events != [] {
      var init := events[..|events| - 1];
      RunKeepsSettled(init);
      StepKeepsSettled(Run(Started, init), events[|events| - 1]);
    }
  }

  /** The log only ever grows by appending: whatever it holds at one moment is
      a prefix of what it holds after any further events. */
  lemma {:induction false} RunOnlyAppends(s: State, events: seq<Event>)
    ensures s.messages <= Run(s, events).messages
  {
    if events != [] {
      RunOnlyAppends(s, events[..|events| - 1]);
    }
  }

  /** One full exchange from a settled, idle widget with a non-blank input:
      the visitor's trimmed turn and one reply are appended, the request's
      history is the log before the turn, and both controls are enabled
      again. */
  lemma {:induction false} ExchangeAppendsTurnAndReply(s: State, o: Outcome)
    requires Settled(s) && s.inFlight == 0 && Trim(s.inputValue) != ""
    ensures
      var sent := Step(s, Submitted);
      var done := Step(sent, Resolved(o));
      OnSubmit(s).1 == Some(Request(Trim(s.inputValue), s.messages)) &&
      sent.inputDisabled && sent.buttonDisabled && sent.inFlight == 1 &&
      done.messages == s.messages + [Message(User, Trim(s.inputValue)), Message(Model, ReplyText(o))] &&
      !done.inputDisabled && !done.buttonDisabled && done.inFlight == 0 && done.inputValue == ""
  {
    var sent := OnSubmit(s).0;
    assert Step(s, Submitted) == sent;
    assert Step(sent, Resolved(o)) == OnResolve(sent, o);
  }

  /** An accepted submit as one state: the only shape `OnSubmit` can give
      when the trimmed input is not blank. */
  lemma SubmitAccepted(s: State)
    requires Trim(s.inputValue) != ""
    ensures OnSubmit(s) ==
      (s.(messages := s.messages + [Message(User, Trim(s.inputValue))], inputValue := "",
          inputDisabled := true, buttonDisabled := true, inFlight := s.inFlight + 1),
       Some(Request(Trim(s.inputValue), s.messages)))
  {
  }

  /** The widget's state in main.js: the closure's `messages` array and the
      DOM controls it reads and sets. */
  class ChatWidget {
    var messages: seq<Message>
    var inputValue: string
    var inputDisabled: bool
    var buttonDisabled: bool
    var inFlight: nat

    function View(): State
      reads this
    {
      State(messages, inputValue, inputDisabled, buttonDisabled, inFlight)
    }

    constructor ()
      ensures View() == Started
    {
      messages := [Message(Model, Greeting)];
      inputValue := "";
      inputDisabled := false;
      buttonDisabled := false;
      inFlight := 0;
    }

    /** Typing into the input, which a disabled input does not take. */
    method Input(text: string)
      modifies this
      ensures View() == Step(old(View()), Typed(text))
    {
      if !inputDisabled {
        inputValue := text;
      }
    }

    /** The submit handler up to the `fetch`: `request` is what gets posted. */
    method Submit() returns (request: Option<Request>)
      modifies this
      ensures (View(), request) == OnSubmit(old(View()))
      ensures old(messages) <= messages
    {
      var userInput := Trim(inputValue);
      if userInput == "" {
        request := None;
        return;
      }
      SubmitAccepted(View());
      var posted := Post(userInput);
      request := Some(posted);
    }

    /** An accepted submit: push the visitor's turn, clear and disable the
        controls, and post the turn with the log before it as history. */
    method Post(userInput: string) returns (request: Request)
      modifies this
      ensures messages == old(messages) + [Message(User, userInput)]
      ensures inputValue == "" && inputDisabled && buttonDisabled && inFlight == old(inFlight) + 1
      ensures request == Request(userInput, old(messages))
    {
      messages := messages + [Message(User, userInput)];
      inputValue := "";
      inputDisabled := true;
      buttonDisabled := true;
      inFlight := inFlight + 1;
      var history := messages[..|messages| - 1];
      assert history == old(messages);
      request := Request(userInput, history);
    }

    /** The handler's `try`/`catch`/`finally` once the outcome is known. */
    method Resolve(outcome: Outcome)
      requires inFlight > 0
      modifies this
      ensures View() == OnResolve(old(View()), outcome)
      ensures old(messages) <= messages
    {
      if outcome.Response? && outcome.ok {
        messages := messages + [Message(Model, outcome.text)];
      } else {
        messages := messages + [Message(Model, Apology)];
      }
      inputDisabled := false;
      buttonDisabled := false;
      inFlight := inFlight - 1;
    }
  }
}
