/** The client's two streaming paths: server-sent events in, messages for the receiver out. */
module EventStream {
  import opened Types

  datatype HttpError = Http(code: nat, message: string)

  datatype Event = Event(kind: string, data: string)

  /** What the receiver gets: a message, the end marker Ok(None), or an error. */
  type Delivery<T> = Result<Option<T>, HttpError>

  /** The JSON parsers: of messages and of error responses, with the error text of a failed parse, and of router
      envelopes, for the string in their content field. */
  datatype Parsers<T> = Parsers(
    message: string -> Result<T, string>,
    error: string -> Result<HttpError, string>,
    envelopeContent: string -> Option<string>)

  const DONE := "[DONE]"
  const INTERNAL_SERVER_ERROR: nat := 500

  // ---------------------------------------------------------------------------------------------
  // Framing

  /** The characters with the Unicode property White_Space. */
  predicate IsSpace(c: char) {
    var n := c as int;
    || 9 <= n <= 13 || n == 0x20 || n == 0x85 || n == 0xA0 || n == 0x1680
    || 0x2000 <= n <= 0x200A || n == 0x2028 || n == 0x2029 || n == 0x202F || n == 0x205F || n == 0x3000
  }

  function TrimStart(s: string): string {
    if s != "" && IsSpace(s[0]) then TrimStart(s[1..]) else s
  }

  function TrimEnd(s: string): string {
    if s != "" && IsSpace(s[|s| - 1]) then TrimEnd(s[..|s| - 1]) else s
  }

  function Trim(s: string): string {
    TrimEnd(TrimStart(s))
  }

  /** Where the first blank line begins, or the length if there is none. */
  function FirstBlankLine(s: string): (i: nat)
    ensures i <= |s|
    ensures i < |s| ==> i + 1 < |s| && s[i] == '\n' && s[i + 1] == '\n'
  {
    if |s| < 2 then |s|
    else if s[0] == '\n' && s[1] == '\n' then 0
    else 1 + FirstBlankLine(s[1..])
  }

  function Split(s: string): seq<string>
    decreases |s|
  {
    var i := FirstBlankLine(s);
    if i == |s| then [s] else [s[..i]] + Split(s[i + 2..])
  }

  const PREFIX := "data: "

  function StripPrefix(s: string): string {
    if PREFIX <= s then s[|PREFIX|..] else s
  }

  /** The payloads in the pieces; pieces of white space only are skipped. */
  function PayloadsIn(pieces: seq<string>): seq<string> {
    if pieces == [] then []
    else
      var rest := PayloadsIn(pieces[1..]);
      if Trim(pieces[0]) == "" then rest else [StripPrefix(Trim(pieces[0]))] + rest
  }

  function Payloads(content: string): seq<string> {
    PayloadsIn(Split(content))
  }

  // ---------------------------------------------------------------------------------------------
  // Delivery

  /** What an event amounts to: payloads to parse, or a failure that ends the stream. */
  datatype Signal = Data(payload: string) | Failure(error: HttpError)

  predicate Ends(s: Signal) {
    s.Failure? || s.payload == DONE
  }

  /** One payload that is not the end marker: a message, an error response, or a parse failure. */
  function Parsed<T>(p: Parsers<T>, failure: string -> string, payload: string): Delivery<T> {
    match p.message(payload)
    case Ok(m) => Ok(Some(m))
    case Err(_) =>
      match p.error(payload)
      case Ok(e) => Err(e)
      case Err(_) => Err(Http(INTERNAL_SERVER_ERROR, failure(payload)))
  }

  function Delivered<T>(p: Parsers<T>, failure: string -> string, s: Signal): Delivery<T> {
    if s.Failure? then Err(s.error) else if s.payload == DONE then Ok(None) else Parsed(p, failure, s.payload)
  }

  /** The direct path names the error of the second parse, the router path that of the first. */
  function DirectFailure<T>(p: Parsers<T>): string -> string {
    payload => "deserialization error: " + (if p.error(payload).Err? then p.error(payload).error else "")
  }

  function RouterFailure<T>(p: Parsers<T>): string -> string {
    payload => "failed to parse response: " + (if p.message(payload).Err? then p.message(payload).error else "")
  }

  /** Delivers signal by signal up to the first that ends the stream. */
  function Deliver<T>(p: Parsers<T>, failure: string -> string, signals: seq<Signal>): seq<Delivery<T>> {
    if signals == [] then []
    else if Ends(signals[0]) then [Delivered(p, failure, signals[0])]
    else [Delivered(p, failure, signals[0])] + Deliver(p, failure, signals[1..])
  }

  type Events = seq<Result<Event, string>>

  function DirectSignal(item: Result<Event, string>): Signal {
    match item
    case Ok(e) => Data(e.data)
    case Err(m) => Failure(Http(INTERNAL_SERVER_ERROR, m))
  }

  function DirectSignals(events: Events): seq<Signal> {
    if events == [] then [] else [DirectSignal(events[0])] + DirectSignals(events[1..])
  }

  function AsData(payloads: seq<string>): seq<Signal> {
    if payloads == [] then [] else [Data(payloads[0])] + AsData(payloads[1..])
  }

  /** The string in the content field of an envelope, or else the data as it is. */
  function Content<T>(p: Parsers<T>, e: Event): string {
    match p.envelopeContent(e.data)
    case Some(s) => s
    case None => e.data
  }

  function RouterSignal<T>(p: Parsers<T>, item: Result<Event, string>): seq<Signal> {
    match item
    case Err(m) => [Failure(Http(INTERNAL_SERVER_ERROR, "stream error: " + m))]
    case Ok(e) =>
      if e.kind == "png" then []
      else if e.kind == "err" then [Failure(Http(INTERNAL_SERVER_ERROR, e.data))]
      else AsData(Payloads(Content(p, e)))
  }

  function RouterSignals<T>(p: Parsers<T>, events: Events): seq<Signal> {
    if events == [] then [] else RouterSignal(p, events[0]) + RouterSignals(p, events[1..])
  }

  lemma {:induction false} DeliverAppend<T>(p: Parsers<T>, failure: string -> string, a: seq<Signal>, b: seq<Signal>)
    ensures (exists s :: s in a && Ends(s)) ==> Deliver(p, failure, a + b) == Deliver(p, failure, a)
    ensures (forall s | s in a :: !Ends(s)) ==> Deliver(p, failure, a + b) == Deliver(p, failure, a) + Deliver(p, failure, b)
  {
    if a == [] {
      assert a + b == b;
    } else {
      DeliverAppend(p, failure, a[1..], b);
      assert a == [a[0]] + a[1..];
      assert (a + b)[1..] == a[1..] + b;
    }
  }

  function DeliverDirect<T>(p: Parsers<T>, events: Events): seq<Delivery<T>> {
    Deliver(p, DirectFailure(p), DirectSignals(events))
  }

  lemma NextDirectEvent<T>(p: Parsers<T>, events: Events, k: nat)
    requires k < |events|
    ensures var d := Delivered(p, DirectFailure(p), DirectSignal(events[k]));
            DeliverDirect(p, events[k..])
            == if Ends(DirectSignal(events[k])) then [d] else [d] + DeliverDirect(p, events[k + 1..])
  {
    assert events[k..][1..] == events[k + 1..];
  }

  /** A message, an error response, or a parse failure, on the direct path. */
  method ParseData<T>(data: string, p: Parsers<T>) returns (d: Delivery<T>)
    ensures d == Parsed(p, DirectFailure(p), data)
  {
    match p.message(data) {
      case Ok(message) =>
        d := Ok(Some(message));
      case Err(_) =>
        match p.error(data) {
          case Ok(error) =>
            d := Err(error);
          case Err(serde) =>
            d := Err(Http(INTERNAL_SERVER_ERROR, "deserialization error: " + serde));
        }
    }
  }

  /** Reads the events until the end marker or a stream error. */
  method HandleStreaming<T>(events: Events, p: Parsers<T>) returns (sent: seq<Delivery<T>>)
    ensures sent == Deliver(p, DirectFailure(p), DirectSignals(events))
  {
    sent := [];
    for k := 0 to |events|
      invariant sent + DeliverDirect(p, events[k..]) == DeliverDirect(p, events)
    {
      NextDirectEvent(p, events, k);
      match events[k] {
        case Ok(event) =>
          if event.data == DONE {
            sent := sent + [Ok(None)];
            return;
          }
          var d := ParseData(event.data, p);
          sent := sent + [d];
        case Err(error) =>
          sent := sent + [Err(Http(INTERNAL_SERVER_ERROR, error))];
          return;
      }
    }
  }

  /** A message, an error response, or a parse failure, on the router path. */
  method ParsePiece<T>(json: string, p: Parsers<T>) returns (d: Delivery<T>)
    ensures d == Parsed(p, RouterFailure(p), json)
  {
    match p.message(json) {
      case Ok(message) =>
        d := Ok(Some(message));
      case Err(parseError) =>
        match p.error(json) {
          case Ok(error) =>
            d := Err(error);
          case Err(_) =>
            d := Err(Http(INTERNAL_SERVER_ERROR, "failed to parse response: " + parseError));
        }
    }
  }

  /** What the pieces from the k-th on deliver. */
  function DeliverPieces<T>(p: Parsers<T>, pieces: seq<string>): seq<Delivery<T>> {
    Deliver(p, RouterFailure(p), AsData(PayloadsIn(pieces)))
  }

  lemma NextPiece<T>(p: Parsers<T>, pieces: seq<string>, k: nat)
    requires k < |pieces|
    ensures var trimmed := Trim(pieces[k]);
            var rest := pieces[k + 1..];
            if trimmed == "" then
              && DeliverPieces(p, pieces[k..]) == DeliverPieces(p, rest)
              && (DONE in PayloadsIn(pieces[k..]) <==> DONE in PayloadsIn(rest))
            else if StripPrefix(trimmed) == DONE then
              DeliverPieces(p, pieces[k..]) == [Ok(None)] && DONE in PayloadsIn(pieces[k..])
            else
              && DeliverPieces(p, pieces[k..]) == [Parsed(p, RouterFailure(p), StripPrefix(trimmed))] + DeliverPieces(p, rest)
              && (DONE in PayloadsIn(pieces[k..]) <==> DONE in PayloadsIn(rest))
  {
    assert pieces[k..][1..] == pieces[k + 1..];
    var payloads := PayloadsIn(pieces[k..]);
    if payloads != [] {
      assert payloads == [payloads[0]] + payloads[1..];
    }
  }

  /** Parses the pieces of one envelope's content until the end marker. */
  method HandleContent<T>(content: string, p: Parsers<T>) returns (sent: seq<Delivery<T>>, done: bool)
    ensures sent == Deliver(p, RouterFailure(p), AsData(Payloads(content)))
    ensures done <==> DONE in Payloads(content)
  {
    sent, done := [], false;
    var pieces := Split(content);
    for k := 0 to |pieces|
      invariant sent + DeliverPieces(p, pieces[k..]) == DeliverPieces(p, pieces)
      invariant DONE in PayloadsIn(pieces[k..]) <==> DONE in PayloadsIn(pieces)
    {
      NextPiece(p, pieces, k);
      var trimmed := Trim(pieces[k]);
      if trimmed == "" {
        continue;
      }
      var json := StripPrefix(trimmed);
      if json == DONE {
        return sent + [Ok(None)], true;
      }
      var d := ParsePiece(json, p);
      sent := sent + [d];
    }
  }

  lemma {:induction false} DoneEnds(payloads: seq<string>)
    ensures DONE in payloads <==> exists s :: s in AsData(payloads) && Ends(s)
    ensures DONE !in payloads ==> forall s | s in AsData(payloads) :: !Ends(s)
  {
    if payloads != [] {
      DoneEnds(payloads[1..]);
      assert payloads == [payloads[0]] + payloads[1..];
      if payloads[0] == DONE {
        assert Data(DONE) in AsData(payloads);
      }
    }
  }

  function DeliverEvents<T>(p: Parsers<T>, events: Events): seq<Delivery<T>> {
    Deliver(p, RouterFailure(p), RouterSignals(p, events))
  }

  /** What an event and the deliveries of the events after it amount to. */
  function DeliverEventThen<T>(p: Parsers<T>, item: Result<Event, string>, rest: seq<Delivery<T>>): seq<Delivery<T>> {
    match item
    case Err(m) => [Err(Http(INTERNAL_SERVER_ERROR, "stream error: " + m))]
    case Ok(e) =>
      if e.kind == "png" then rest
      else if e.kind == "err" then [Err(Http(INTERNAL_SERVER_ERROR, e.data))]
      else
        var payloads := Payloads(Content(p, e));
        var out := Deliver(p, RouterFailure(p), AsData(payloads));
        if DONE in payloads then out else out + rest
  }

  lemma NextEvent<T>(p: Parsers<T>, events: Events, k: nat)
    requires k < |events|
    ensures DeliverEvents(p, events[k..]) == DeliverEventThen(p, events[k], DeliverEvents(p, events[k + 1..]))
  {
    var signals := RouterSignal(p, events[k]);
    assert events[k..][1..] == events[k + 1..];
    DeliverAppend(p, RouterFailure(p), signals, RouterSignals(p, events[k + 1..]));
    match events[k] {
      case Err(m) =>
        assert signals[0] in signals && Ends(signals[0]);
      case Ok(e) =>
        if e.kind == "err" {
          assert signals[0] in signals && Ends(signals[0]);
        } else if e.kind != "png" {
          DoneEnds(Payloads(Content(p, e)));
        }
    }
  }

  /** Reads the router's events until an err event, a stream error or the end marker in a content. */
  method HandleStreamWithBody<T>(events: Events, p: Parsers<T>) returns (sent: seq<Delivery<T>>)
    ensures sent == Deliver(p, RouterFailure(p), RouterSignals(p, events))
  {
    sent := [];
    for k := 0 to |events|
      invariant sent + DeliverEvents(p, events[k..]) == DeliverEvents(p, events)
    {
      NextEvent(p, events, k);
      match events[k] {
        case Ok(event) =>
          if event.kind == "png" {
            continue;
          }
          if event.kind == "err" {
            sent := sent + [Err(Http(INTERNAL_SERVER_ERROR, event.data))];
            return;
          }
          var out, done := HandleContent(Content(p, event), p);
          sent := sent + out;
          if done {
            return;
          }
        case Err(error) =>
          sent := sent + [Err(Http(INTERNAL_SERVER_ERROR, "stream error: " + error))];
          return;
      }
    }
  }
}
