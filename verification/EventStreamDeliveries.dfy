/** What the receiver gets, event by event, on both paths. */
module EventStreamDeliveries {
  import opened Types
  import opened EventStream

  /** The message in a payload, or the error response in it, or an internal error with this text. */
  function Reply<T>(p: Parsers<T>, payload: string, otherwise: string): Delivery<T> {
    if p.message(payload).Ok? then Ok(Some(p.message(payload).value))
    else if p.error(payload).Ok? then Err(p.error(payload).value)
    else Err(Http(500, otherwise))
  }

  // ---------------------------------------------------------------------------------------------
  // The direct path

  /** Of a payload that parses as neither, the error names why it is no error response. */
  function DirectReply<T>(p: Parsers<T>, payload: string): Delivery<T> {
    Reply(p, payload, "deserialization error: " + (if p.error(payload).Err? then p.error(payload).error else ""))
  }

  function DirectReplies<T>(p: Parsers<T>, events: Events, k: nat): seq<Delivery<T>>
    requires k <= |events| && forall i :: 0 <= i < k ==> events[i].Ok?
  {
    seq(k, i requires 0 <= i < k => DirectReply(p, events[i].value.data))
  }

  /** On the direct path there is one delivery per event, until an event holds [DONE], which delivers the end marker, or
      the stream fails, which delivers the failure; nothing follows either. */
  lemma {:induction false} DirectPathDelivers<T>(p: Parsers<T>, events: Events, k: nat)
    requires k <= |events| && forall i :: 0 <= i < k ==> events[i].Ok? && events[i].value.data != "[DONE]"
    ensures var sent, before := DeliverDirect(p, events), DirectReplies(p, events, k);
            && (k == |events| ==> sent == before)
            && (k < |events| && events[k].Err? ==> sent == before + [Err(Http(500, events[k].error))])
            && (k < |events| && events[k].Ok? && events[k].value.data == "[DONE]" ==> sent == before + [Ok(None)])
    decreases k
  {
    if |events| > 0 {
      NextDirectEvent(p, events, 0);
      assert events[0..] == events;
    }
    if k > 0 {
      DirectPathDelivers(p, events[1..], k - 1);
      assert DirectReplies(p, events, k) == [DirectReply(p, events[0].value.data)] + DirectReplies(p, events[1..], k - 1);
    } else {
      assert DirectReplies(p, events, 0) == [];
    }
  }

  // ---------------------------------------------------------------------------------------------
  // The router path

  /** Of a payload that parses as neither, the error names why it is no message. */
  function RouterReply<T>(p: Parsers<T>, payload: string): Delivery<T> {
    Reply(p, payload, "failed to parse response: " + (if p.message(payload).Err? then p.message(payload).error else ""))
  }

  function RouterReplies<T>(p: Parsers<T>, payloads: seq<string>): seq<Delivery<T>> {
    seq(|payloads|, i requires 0 <= i < |payloads| => RouterReply(p, payloads[i]))
  }

  /** The payloads in an event: those in the content of its envelope, or in its data if that is no envelope. */
  function PayloadsOf<T>(p: Parsers<T>, e: Event): seq<string> {
    Payloads(if p.envelopeContent(e.data).Some? then p.envelopeContent(e.data).value else e.data)
  }

  /** The event goes by: a keep-alive, or one whose payloads do not hold the end marker. */
  predicate GoesBy<T>(p: Parsers<T>, item: Result<Event, string>) {
    && item.Ok?
    && (item.value.kind == "png" || (item.value.kind != "err" && "[DONE]" !in PayloadsOf(p, item.value)))
  }

  /** What an event that goes by delivers. */
  function RepliesToEvent<T>(p: Parsers<T>, item: Result<Event, string>): seq<Delivery<T>> {
    if item.Err? || item.value.kind == "png" then [] else RouterReplies(p, PayloadsOf(p, item.value))
  }

  function RouterRepliesTo<T>(p: Parsers<T>, events: Events, k: nat): seq<Delivery<T>>
    requires k <= |events|
  {
    Flatten(seq(k, i requires 0 <= i < k => RepliesToEvent(p, events[i])))
  }

  lemma {:induction false} PayloadsWithoutMarker<T>(p: Parsers<T>, payloads: seq<string>)
    requires "[DONE]" !in payloads
    ensures Deliver(p, RouterFailure(p), AsData(payloads)) == RouterReplies(p, payloads)
  {
    if payloads != [] {
      PayloadsWithoutMarker(p, payloads[1..]);
      assert RouterReplies(p, payloads) == [RouterReply(p, payloads[0])] + RouterReplies(p, payloads[1..]);
    }
  }

  lemma {:induction false} PayloadsUpToTheMarker<T>(p: Parsers<T>, payloads: seq<string>, j: nat)
    requires j < |payloads| && payloads[j] == "[DONE]" && "[DONE]" !in payloads[..j]
    ensures Deliver(p, RouterFailure(p), AsData(payloads)) == RouterReplies(p, payloads[..j]) + [Ok(None)]
    decreases j
  {
    if j > 0 {
      assert payloads[0] in payloads[..j];
      assert payloads[..j] == [payloads[0]] + payloads[1..][..j - 1];
      PayloadsUpToTheMarker(p, payloads[1..], j - 1);
      assert RouterReplies(p, payloads[..j]) == [RouterReply(p, payloads[0])] + RouterReplies(p, payloads[1..][..j - 1]);
    } else {
      assert RouterReplies(p, payloads[..0]) == [];
    }
  }

  lemma RouterRepliesToFirst<T>(p: Parsers<T>, events: Events, k: nat)
    requires 0 < k <= |events|
    ensures RouterRepliesTo(p, events, k) == RepliesToEvent(p, events[0]) + RouterRepliesTo(p, events[1..], k - 1)
  {
    var lists := seq(k, i requires 0 <= i < k => RepliesToEvent(p, events[i]));
    assert lists[1..] == seq(k - 1, i requires 0 <= i < k - 1 => RepliesToEvent(p, events[1..][i]));
  }

  lemma EventGoesBy<T>(p: Parsers<T>, events: Events)
    requires |events| > 0 && GoesBy(p, events[0])
    ensures DeliverEvents(p, events) == RepliesToEvent(p, events[0]) + DeliverEvents(p, events[1..])
  {
    NextEvent(p, events, 0);
    assert events[0..] == events;
    if events[0].value.kind != "png" {
      PayloadsWithoutMarker(p, PayloadsOf(p, events[0].value));
    } else {
      assert [] + DeliverEvents(p, events[1..]) == DeliverEvents(p, events[1..]);
    }
  }

  /** The event ends the stream with this delivery, after those of its payloads before. */
  ghost predicate EndsTheStream<T>(p: Parsers<T>, item: Result<Event, string>, sent: seq<Delivery<T>>) {
    match item
    case Err(m) => sent == [Err(Http(500, "stream error: " + m))]
    case Ok(e) =>
      if e.kind == "err" then sent == [Err(Http(500, e.data))]
      else
        var payloads := PayloadsOf(p, e);
        exists j :: 0 <= j < |payloads| && payloads[j] == "[DONE]" && "[DONE]" !in payloads[..j]
                    && sent == RouterReplies(p, payloads[..j]) + [Ok(None)]
  }

  lemma {:induction false} FirstMarker(payloads: seq<string>) returns (j: nat)
    requires "[DONE]" in payloads
    ensures j < |payloads| && payloads[j] == "[DONE]" && "[DONE]" !in payloads[..j]
  {
    if payloads[0] == "[DONE]" {
      j := 0;
    } else {
      j := FirstMarker(payloads[1..]);
      assert payloads[..j + 1] == [payloads[0]] + payloads[1..][..j];
      j := j + 1;
    }
  }

  lemma EventEndsTheStream<T>(p: Parsers<T>, events: Events)
    requires |events| > 0 && !GoesBy(p, events[0])
    ensures EndsTheStream(p, events[0], DeliverEvents(p, events))
  {
    NextEvent(p, events, 0);
    assert events[0..] == events;
    if events[0].Ok? && events[0].value.kind != "err" {
      var j := FirstMarker(PayloadsOf(p, events[0].value));
      PayloadsUpToTheMarker(p, PayloadsOf(p, events[0].value), j);
    }
  }

  lemma InFront<T>(all: seq<T>, more: seq<T>, first: seq<T>, rest: seq<T>, last: seq<T>)
    requires all == first + more && more == rest + last
    ensures all == (first + rest) + last
  {
  }

  /** The router path, event by event. Keep-alives deliver nothing; every other event delivers a reply per payload. The
      first event that is not of this kind ends the stream: a failure of the stream and an err event deliver an internal
      error, and a content with the end marker delivers the replies before it and the end marker. */
  lemma {:induction false} RouterPathDelivers<T>(p: Parsers<T>, events: Events, k: nat) returns (last: seq<Delivery<T>>)
    requires k <= |events| && forall i :: 0 <= i < k ==> GoesBy(p, events[i])
    requires k < |events| ==> !GoesBy(p, events[k])
    ensures DeliverEvents(p, events) == RouterRepliesTo(p, events, k) + last
    ensures if k == |events| then last == [] else EndsTheStream(p, events[k], last)
    decreases k
  {
    if k > 0 {
      last := RouterPathDelivers(p, events[1..], k - 1);
      EventGoesBy(p, events);
      RouterRepliesToFirst(p, events, k);
      InFront(DeliverEvents(p, events), DeliverEvents(p, events[1..]), RepliesToEvent(p, events[0]),
              RouterRepliesTo(p, events[1..], k - 1), last);
    } else {
      last := DeliverEvents(p, events);
      assert RouterRepliesTo(p, events, 0) == [];
      if |events| > 0 {
        EventEndsTheStream(p, events);
      }
    }
  }
}
