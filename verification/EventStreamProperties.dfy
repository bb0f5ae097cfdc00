/** What the receiver of a stream sees, and the framing of payloads as server-sent events. */
module EventStreamProperties {
  import opened Types
  import opened EventStream

  // ---------------------------------------------------------------------------------------------
  // The shape of what is delivered

  /** The position of the first signal that ends the stream, or the number of signals. */
  function FirstEnd(signals: seq<Signal>): (k: nat)
    ensures k <= |signals|
    ensures forall i :: 0 <= i < k ==> !Ends(signals[i])
    ensures k < |signals| ==> Ends(signals[k])
  {
    if signals == [] then 0 else if Ends(signals[0]) then 0 else 1 + FirstEnd(signals[1..])
  }

  /** The receiver gets exactly one delivery per signal up to and including the first that ends the stream:
      messages and parse failures before it, and at it Ok(None) or the failure. So Ok(None) comes at most once
      and last, nothing follows a failure of the stream, and parsing failures do not stop it. */
  lemma {:induction false} DeliveriesEndWithTheFirstEnd<T>(p: Parsers<T>, failure: string -> string, signals: seq<Signal>)
    ensures var sent, k := Deliver(p, failure, signals), FirstEnd(signals);
            && |sent| == (if k < |signals| then k + 1 else k)
            && (forall i :: 0 <= i < k ==> sent[i] == Parsed(p, failure, signals[i].payload) && sent[i] != Ok(None))
            && (k < |signals| ==> sent[k] == if signals[k].Failure? then Err(signals[k].error) else Ok(None))
  {
    if signals != [] && !Ends(signals[0]) {
      DeliveriesEndWithTheFirstEnd(p, failure, signals[1..]);
      var sent, rest := Deliver(p, failure, signals), Deliver(p, failure, signals[1..]);
      assert sent == [Delivered(p, failure, signals[0])] + rest;
      forall i | 0 <= i < FirstEnd(signals)
        ensures sent[i] == Parsed(p, failure, signals[i].payload) && sent[i] != Ok(None)
      {
        if i > 0 {
          assert sent[i] == rest[i - 1];
        }
      }
    }
  }

  /** What comes after the end does not matter. */
  lemma NothingFollowsTheEnd<T>(p: Parsers<T>, failure: string -> string, signals: seq<Signal>, more: seq<Signal>)
    requires FirstEnd(signals) < |signals|
    ensures Deliver(p, failure, signals + more) == Deliver(p, failure, signals)
  {
    assert signals[FirstEnd(signals)] in signals;
    DeliverAppend(p, failure, signals, more);
  }

  // ---------------------------------------------------------------------------------------------
  // Framing

  predicate HasBlankLine(s: string) {
    FirstBlankLine(s) < |s|
  }

  /** A payload that survives framing: not empty, no white space at its end, no blank line inside. */
  predicate Clean(payload: string) {
    payload != "" && !IsSpace(payload[|payload| - 1]) && !HasBlankLine(payload)
  }

  predicate AllClean(payloads: seq<string>) {
    forall x | x in payloads :: Clean(x)
  }

  const BLANK := "\n\n"

  function Print(payloads: seq<string>): string {
    if payloads == [] then "" else PREFIX + payloads[0] + BLANK + Print(payloads[1..])
  }

  lemma {:induction false} FirstBlankLineIsFirst(s: string)
    ensures forall i :: 0 <= i < FirstBlankLine(s) && i + 1 < |s| ==> !(s[i] == '\n' && s[i + 1] == '\n')
  {
    if |s| >= 2 && !(s[0] == '\n' && s[1] == '\n') {
      FirstBlankLineIsFirst(s[1..]);
      forall i | 0 <= i < FirstBlankLine(s) && i + 1 < |s|
        ensures !(s[i] == '\n' && s[i + 1] == '\n')
      {
        if i > 0 {
          assert s[1..][i - 1] == s[i];
          assert s[1..][i] == s[i + 1];
        }
      }
    }
  }

  ghost predicate BlankLineAt(s: string, i: nat) {
    i + 1 < |s| && s[i] == '\n' && s[i + 1] == '\n'
  }

  /** The definition of having a blank line by search agrees with the one by positions. */
  lemma BlankLineExists(s: string)
    ensures HasBlankLine(s) <==> exists i: nat :: BlankLineAt(s, i)
    ensures forall i: nat :: BlankLineAt(s, i) ==> FirstBlankLine(s) <= i
  {
    FirstBlankLineIsFirst(s);
    if HasBlankLine(s) {
      assert BlankLineAt(s, FirstBlankLine(s));
    }
  }

  lemma {:induction false} TrimStartKeepsEnd(s: string)
    ensures var t := TrimStart(s);
            |t| <= |s| && t == s[|s| - |t|..] && (t != "" ==> !IsSpace(t[0]))
  {
    if s != "" && IsSpace(s[0]) {
      TrimStartKeepsEnd(s[1..]);
    }
  }

  lemma {:induction false} TrimEndKeepsStart(s: string)
    ensures var t := TrimEnd(s);
            |t| <= |s| && t == s[..|t|] && (t != "" ==> !IsSpace(t[|t| - 1]))
    decreases |s|
  {
    if s != "" && IsSpace(s[|s| - 1]) {
      TrimEndKeepsStart(s[..|s| - 1]);
    }
  }

  /** A part of a text without blank line has none. */
  lemma PartsHaveNoBlankLine(s: string, from: nat, to: nat)
    requires !HasBlankLine(s) && from <= to <= |s|
    ensures !HasBlankLine(s[from..to])
  {
    var part := s[from..to];
    BlankLineExists(s);
    BlankLineExists(part);
    if HasBlankLine(part) {
      var i: nat :| BlankLineAt(part, i);
      assert BlankLineAt(s, from + i);
    }
  }

  lemma TrimmedPiecesAreClean(piece: string)
    requires !HasBlankLine(piece) && Trim(piece) != ""
    ensures Clean(Trim(piece))
  {
    var started := TrimStart(piece);
    TrimStartKeepsEnd(piece);
    TrimEndKeepsStart(started);
    var from := |piece| - |started|;
    PartsHaveNoBlankLine(piece, from, |piece|);
    assert piece[from..|piece|] == started;
    PartsHaveNoBlankLine(started, 0, |Trim(piece)|);
    assert started[0..|Trim(piece)|] == Trim(piece);
  }

  /** What is left of a piece without blank line after trimming and stripping is clean. */
  lemma StrippedPiecesAreClean(piece: string)
    requires !HasBlankLine(piece) && Trim(piece) != ""
    ensures Clean(StripPrefix(Trim(piece)))
  {
    TrimmedPiecesAreClean(piece);
    var trimmed := Trim(piece);
    if PREFIX <= trimmed {
      assert IsSpace(PREFIX[|PREFIX| - 1]);
      assert trimmed != PREFIX;
      PartsHaveNoBlankLine(trimmed, |PREFIX|, |trimmed|);
      assert trimmed[|PREFIX|..|trimmed|] == trimmed[|PREFIX|..];
    }
  }

  lemma {:induction false} PiecesHaveNoBlankLine(s: string)
    ensures forall piece | piece in Split(s) :: !HasBlankLine(piece)
    decreases |s|
  {
    var i := FirstBlankLine(s);
    if i < |s| {
      PiecesHaveNoBlankLine(s[i + 2..]);
      BlankLineExists(s);
      BlankLineExists(s[..i]);
      if HasBlankLine(s[..i]) {
        var j: nat :| BlankLineAt(s[..i], j);
        assert BlankLineAt(s, j);
      }
    }
  }

  lemma {:induction false} PayloadsInAreClean(pieces: seq<string>)
    requires forall piece | piece in pieces :: !HasBlankLine(piece)
    ensures AllClean(PayloadsIn(pieces))
  {
    if pieces != [] {
      PayloadsInAreClean(pieces[1..]);
      if Trim(pieces[0]) != "" {
        StrippedPiecesAreClean(pieces[0]);
      }
    }
  }

  /** Every payload found in any content is clean. */
  lemma EveryPayloadIsClean(content: string)
    ensures AllClean(Payloads(content))
  {
    PiecesHaveNoBlankLine(content);
    PayloadsInAreClean(Split(content));
  }

  /** A text that starts and ends with a visible character is trimmed already. */
  lemma TrimIsIdentity(s: string)
    requires s != "" && !IsSpace(s[0]) && !IsSpace(s[|s| - 1])
    ensures Trim(s) == s
  {
  }

  /** Space, tab, line feed or carriage return. */
  predicate Blank(c: char) {
    c == ' ' || c == '\t' || c == '\n' || c == '\r'
  }

  predicate Visible(c: char) {
    '!' <= c <= '~'
  }

  lemma {:induction false} BlanksAreTrimmedFromTheEnd(s: string, blanks: string)
    requires s != "" && Visible(s[|s| - 1]) && forall i :: 0 <= i < |blanks| ==> Blank(blanks[i])
    ensures TrimEnd(s + blanks) == s
    decreases |blanks|
  {
    if blanks == "" {
      assert s + blanks == s;
    } else {
      BlanksAreTrimmedFromTheEnd(s, blanks[..|blanks| - 1]);
      assert (s + blanks)[..|s + blanks| - 1] == s + blanks[..|blanks| - 1];
    }
  }

  lemma {:induction false} BlanksAreTrimmedFromTheStart(blanks: string, s: string)
    requires s != "" && Visible(s[0]) && forall i :: 0 <= i < |blanks| ==> Blank(blanks[i])
    ensures TrimStart(blanks + s) == s
  {
    if blanks == "" {
      assert blanks + s == s;
    } else {
      BlanksAreTrimmedFromTheStart(blanks[1..], s);
      assert (blanks + s)[1..] == blanks[1..] + s;
    }
  }

  /** Blanks around a visible text are trimmed, and nothing else is. */
  lemma BlanksAreTrimmed(before: string, s: string, after: string)
    requires s != "" && Visible(s[0]) && Visible(s[|s| - 1])
    requires forall i :: 0 <= i < |before| ==> Blank(before[i])
    requires forall i :: 0 <= i < |after| ==> Blank(after[i])
    ensures Trim(before + s + after) == s
  {
    assert before + s + after == before + (s + after);
    BlanksAreTrimmedFromTheStart(before, s + after);
    BlanksAreTrimmedFromTheEnd(s, after);
  }

  /** The blank line after a printed clean payload is the first one. */
  lemma FirstBlankLineOfPrinted(payload: string, rest: string)
    requires Clean(payload)
    ensures FirstBlankLine(PREFIX + payload + BLANK + rest) == |PREFIX + payload|
  {
    var line := PREFIX + payload;
    var s := line + BLANK + rest;
    BlankLineExists(s);
    BlankLineExists(payload);
    assert BlankLineAt(s, |line|);
    var i := FirstBlankLine(s);
    if i < |line| {
      assert BlankLineAt(s, i);
      assert s[i] == line[i];
      if i >= |PREFIX| {
        assert s[i] == payload[i - |PREFIX|];
        if i + 1 < |line| {
          assert s[i + 1] == payload[i + 1 - |PREFIX|];
          assert BlankLineAt(payload, i - |PREFIX|);
        }
      }
    }
  }

  lemma PrintedPayload(payload: string, rest: string)
    requires Clean(payload)
    ensures Payloads(PREFIX + payload + BLANK + rest) == [payload] + Payloads(rest)
  {
    var line := PREFIX + payload;
    var s := line + BLANK + rest;
    FirstBlankLineOfPrinted(payload, rest);
    assert s[..|line|] == line && s[|line| + 2..] == rest;
    assert Split(s) == [line] + Split(rest);
    assert line[0] == 'd' && line[|line| - 1] == payload[|payload| - 1];
    TrimIsIdentity(line);
    assert line[|PREFIX|..] == payload;
  }

  lemma PrintedFirst(payloads: seq<string>, rest: string)
    requires payloads != []
    ensures Print(payloads) + rest == PREFIX + payloads[0] + BLANK + (Print(payloads[1..]) + rest)
  {
    var head, tail := PREFIX + payloads[0] + BLANK, Print(payloads[1..]);
    assert (head + tail) + rest == head + (tail + rest);
  }

  lemma {:induction false} PrintThenSplit(payloads: seq<string>, rest: string)
    requires AllClean(payloads)
    ensures Payloads(Print(payloads) + rest) == payloads + Payloads(rest)
  {
    if payloads == [] {
      assert "" + rest == rest;
    } else {
      assert payloads == [payloads[0]] + payloads[1..];
      PrintThenSplit(payloads[1..], rest);
      PrintedPayload(payloads[0], Print(payloads[1..]) + rest);
      PrintedFirst(payloads, rest);
    }
  }

  /** Printing a list of payloads and splitting the result gives the list back exactly if all are clean. */
  lemma RoundTripIffClean(payloads: seq<string>)
    ensures Payloads(Print(payloads)) == payloads <==> AllClean(payloads)
  {
    EveryPayloadIsClean(Print(payloads));
    if AllClean(payloads) {
      PrintThenSplit(payloads, "");
      assert Print(payloads) + "" == Print(payloads);
      assert Split("") == [""] && Payloads("") == [];
    }
  }

  // ---------------------------------------------------------------------------------------------
  // Regrouping

  lemma {:induction false} AsDataAppend(a: seq<string>, b: seq<string>)
    ensures AsData(a + b) == AsData(a) + AsData(b)
  {
    if a == [] {
      assert a + b == b;
    } else {
      AsDataAppend(a[1..], b);
      assert (a + b)[1..] == a[1..] + b;
    }
  }

  /** The events carry the groups of payloads, one each: printed in the content of an envelope, or in the data itself if
      that is no envelope. */
  ghost predicate Carry<T>(p: Parsers<T>, events: Events, groups: seq<seq<string>>) {
    && |events| == |groups|
    && forall k :: 0 <= k < |events| ==>
         && events[k].Ok? && events[k].value.kind != "png" && events[k].value.kind != "err"
         && AllClean(groups[k])
         && match p.envelopeContent(events[k].value.data) {
              case Some(content) => content == Print(groups[k])
              case None => events[k].value.data == Print(groups[k])
            }
  }

  lemma {:induction false} CarriedSignals<T>(p: Parsers<T>, events: Events, groups: seq<seq<string>>)
    requires Carry(p, events, groups)
    ensures RouterSignals(p, events) == AsData(Flatten(groups))
  {
    if events != [] {
      CarriedSignals(p, events[1..], groups[1..]);
      RoundTripIffClean(groups[0]);
      AsDataAppend(groups[0], Flatten(groups[1..]));
    }
  }

  /** How the payloads are grouped into events makes no difference to what the router path delivers. */
  lemma RegroupingChangesNothing<T>(p: Parsers<T>, a: Events, b: Events, groupsA: seq<seq<string>>, groupsB: seq<seq<string>>)
    requires Carry(p, a, groupsA) && Carry(p, b, groupsB) && Flatten(groupsA) == Flatten(groupsB)
    ensures DeliverEvents(p, a) == DeliverEvents(p, b) == Deliver(p, RouterFailure(p), AsData(Flatten(groupsA)))
  {
    CarriedSignals(p, a, groupsA);
    CarriedSignals(p, b, groupsB);
  }

  ghost predicate Understood<T>(p: Parsers<T>, payload: string) {
    p.message(payload).Ok? || p.error(payload).Ok?
  }

  function OneByOne(payloads: seq<string>): Events {
    if payloads == [] then [] else [Ok(Event("", payloads[0]))] + OneByOne(payloads[1..])
  }

  /** The payloads before the first end marker. */
  function BeforeDone(payloads: seq<string>): seq<string> {
    if payloads == [] || payloads[0] == DONE then [] else [payloads[0]] + BeforeDone(payloads[1..])
  }

  lemma {:induction false} UnderstoodAlike<T>(p: Parsers<T>, payloads: seq<string>)
    requires forall x | x in BeforeDone(payloads) :: Understood(p, x)
    ensures Deliver(p, RouterFailure(p), AsData(payloads)) == Deliver(p, DirectFailure(p), DirectSignals(OneByOne(payloads)))
  {
    if payloads != [] {
      var rest := OneByOne(payloads[1..]);
      assert OneByOne(payloads)[1..] == rest;
      assert DirectSignals(OneByOne(payloads)) == [Data(payloads[0])] + DirectSignals(rest);
      if payloads[0] != DONE {
        assert payloads[0] in BeforeDone(payloads);
        UnderstoodAlike(p, payloads[1..]);
      }
    }
  }

  /** The router path, whatever the grouping, delivers what the direct path delivers for one event per payload,
      as long as every payload before the end marker parses as a message or an error response. */
  lemma RouterAgreesWithDirect<T>(p: Parsers<T>, events: Events, groups: seq<seq<string>>)
    requires Carry(p, events, groups)
    requires forall x | x in BeforeDone(Flatten(groups)) :: Understood(p, x)
    ensures DeliverEvents(p, events) == DeliverDirect(p, OneByOne(Flatten(groups)))
  {
    CarriedSignals(p, events, groups);
    UnderstoodAlike(p, Flatten(groups));
  }
}
