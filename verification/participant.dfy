/** What a participant can say in its result marker, and how the marker is found in a response. */
module Participants {
  import opened Wrappers
  import opened Text
  import opened RunTypes

  datatype Signal =
    | SignalContract | SignalPlan | SignalApproved | SignalChanges
    | SignalIntegration | SignalVerification | SignalBlocked

  datatype Response = Response(signal: Signal, blockedReason: Option<string>, body: string)

  function AllowedSignals(action: NextAction): set<Signal> {
    match action
    case RequestPrimaryContract => {SignalContract, SignalBlocked}
    case RequestReviewerContract => {SignalContract, SignalBlocked}
    case RequestPrimaryPlan => {SignalPlan, SignalBlocked}
    case RequestReviewerPlanVerdict => {SignalApproved, SignalChanges, SignalBlocked}
    case RequestReviewerResultVerdict => {SignalApproved, SignalChanges, SignalBlocked}
    case RequestPrimaryIntegration => {SignalIntegration, SignalBlocked}
    case RequestPrimaryVerification => {SignalVerification, SignalBlocked}
    case RevalidateAndAccept => {}
    case WaitForUser => {}
    case Stop => {}
  }

  const MARKER_OPEN := "<consensus-result>"
  const MARKER_CLOSE := "</consensus-result>"

  function SignalText(signal: Signal): string {
    match signal
    case SignalContract => "CONTRACT_READY"
    case SignalPlan => "PLAN_READY"
    case SignalApproved => "APPROVED"
    case SignalChanges => "CHANGES_REQUIRED"
    case SignalIntegration => "INTEGRATION_READY"
    case SignalVerification => "VERIFICATION_READY"
    case SignalBlocked => "BLOCKED"
  }

  function ParseSignal(text: string): Option<Signal> {
    if text == "CONTRACT_READY" then Some(SignalContract)
    else if text == "PLAN_READY" then Some(SignalPlan)
    else if text == "APPROVED" then Some(SignalApproved)
    else if text == "CHANGES_REQUIRED" then Some(SignalChanges)
    else if text == "INTEGRATION_READY" then Some(SignalIntegration)
    else if text == "VERIFICATION_READY" then Some(SignalVerification)
    else if text == "BLOCKED" then Some(SignalBlocked)
    else None
  }

  lemma SignalRoundTrip(text: string, signal: Signal)
    ensures ParseSignal(text) == Some(signal) <==> text == SignalText(signal)
  {
  }

  // ----- the parser

  function FirstColon(text: string): (p: nat)
    requires ':' in text
    ensures p < |text| && text[p] == ':' && forall i | 0 <= i < p :: text[i] != ':'
  {
    if text[0] == ':' then 0 else FirstColon(text[1..]) + 1
  }

  predicate LegalReason(reason: string) {
    1 <= |reason| <= 64
    && forall c | c in reason :: 'A' <= c <= 'Z' || '0' <= c <= '9' || c == '_'
  }

  /** The trimmed text between the markers: a signal, or BLOCKED with a reason. */
  function ParseMarkerText(marker: string): Result<(Signal, Option<string>)> {
    if ':' !in marker then
      var signal := ParseSignal(marker);
      if signal.Some? then Ok((signal.value, None)) else Err(InvalidResponse)
    else
      var p := FirstColon(marker);
      var reason := Trim(marker[p + 1..]);
      if Trim(marker[..p]) == "BLOCKED" && LegalReason(reason)
      then Ok((SignalBlocked, Some(reason)))
      else Err(InvalidResponse)
  }

  function ParseMarker(value: string): Result<(Signal, Option<string>)> {
    ParseMarkerText(Trim(value))
  }

  function JoinBody(before: string, after: string): string {
    if before == "" then after
    else if after == "" then before
    else before + "\n\n" + after
  }

  /** What a response means once its marker is found. */
  function Judge(before: string, value: string, after: string, allowed: set<Signal>): Result<Response> {
    var marker :- ParseMarker(value);
    var _ :- Need(marker.0 in allowed, InvalidResponse);
    Ok(Response(marker.0, marker.1, JoinBody(Trim(before), Trim(after))))
  }

  function ParseParticipantResponse(text: string, allowed: set<Signal>): Result<Response> {
    var opens := MatchIndices(text, MARKER_OPEN, 0);
    var closes := MatchIndices(text, MARKER_CLOSE, 0);
    var _ :- Need(|opens| == 1 && |closes| == 1, InvalidResponse);
    var start, end := opens[0] + |MARKER_OPEN|, closes[0];
    var _ :- Need(start <= end, InvalidResponse);
    MatchesOccur(text, MARKER_CLOSE, 0);
    MatchesOccur(text, MARKER_OPEN, 0);
    assert opens[0] in opens && closes[0] in closes;
    Judge(text[..opens[0]], text[start..end], text[end + |MARKER_CLOSE|..], allowed)
  }

  // ----- rendered responses

  ghost predicate MarkerFree(text: string) {
    forall i: nat :: !Occurs(text, MARKER_OPEN, i) && !Occurs(text, MARKER_CLOSE, i)
  }

  function Rendered(before: string, value: string, after: string): string {
    before + MARKER_OPEN + value + MARKER_CLOSE + after
  }

  lemma NotInBefore(before: string, rest: string, pattern: string, i: nat)
    requires MarkerFree(before) && rest != "" && rest[0] == '<'
    requires pattern == MARKER_OPEN || pattern == MARKER_CLOSE
    requires Occurs(before + rest, pattern, i)
    ensures |before| <= i
  {
    var text := before + rest;
    assert text == "" + before + rest;
    assert text[|before|] == '<';
    if i < |before| {
      if i + |pattern| <= |before| {
        OccursWithin("", before, rest, pattern, i);
      } else {
        OccursAt(text, pattern, i, |before| - i);
      }
    }
  }

  lemma NotInAfter(front: string, after: string, pattern: string, i: nat)
    requires MarkerFree(after) && (pattern == MARKER_OPEN || pattern == MARKER_CLOSE)
    requires Occurs(front + after, pattern, i)
    ensures i < |front|
  {
    assert front + after == front + after + "";
    if |front| <= i {
      OccursWithin(front, after, "", pattern, i);
    }
  }

  /** A marker in a rendered response is one of the two that were put there: none can straddle,
      because '<' begins a marker and comes nowhere else in it. */
  lemma MarkerPositions(before: string, value: string, after: string, pattern: string, i: nat)
    requires MarkerFree(before) && MarkerFree(after) && '<' !in value
    requires pattern == MARKER_OPEN || pattern == MARKER_CLOSE
    requires Occurs(Rendered(before, value, after), pattern, i)
    ensures i == if pattern == MARKER_OPEN then |before| else |before + MARKER_OPEN + value|
  {
    var text := Rendered(before, value, after);
    var front, rest := before + MARKER_OPEN + value + MARKER_CLOSE, MARKER_OPEN + value + MARKER_CLOSE + after;
    assert text == before + rest && text == front + after;
    NotInBefore(before, rest, pattern, i);
    NotInAfter(front, after, pattern, i);
    OccursAt(text, pattern, i, 0);
    InnerAngles(before, value, after, i);
    OccursAt(text, pattern, i, 1);
    SecondCharacters(before, value, after);
  }

  lemma SecondCharacters(before: string, value: string, after: string)
    ensures Rendered(before, value, after)[|before| + 1] == 'c'
    ensures Rendered(before, value, after)[|before + MARKER_OPEN + value| + 1] == '/'
  {
  }

  lemma InnerAngles(before: string, value: string, after: string, i: nat)
    requires '<' !in value
    requires |before| <= i < |before + MARKER_OPEN + value + MARKER_CLOSE|
    requires Rendered(before, value, after)[i] == '<'
    ensures i == |before| || i == |before + MARKER_OPEN + value|
  {
    var k := i - |before|;
    assert Rendered(before, value, after)[i] == (MARKER_OPEN + value + MARKER_CLOSE)[k];
  }

  /** Parsing a rendered response reads exactly what was put between the markers. */
  lemma ParseRendered(before: string, value: string, after: string, allowed: set<Signal>)
    requires MarkerFree(before) && MarkerFree(after) && '<' !in value
    ensures ParseParticipantResponse(Rendered(before, value, after), allowed)
      == Judge(before, value, after, allowed)
  {
    hide Occurs, MatchIndices, Judge, Rendered, MARKER_OPEN, MARKER_CLOSE;
    var text := Rendered(before, value, after);
    var close := |before + MARKER_OPEN + value|;
    RenderedParts(before, value, after);
    forall i: nat | Occurs(text, MARKER_OPEN, i) ensures i == |before| {
      MarkerPositions(before, value, after, MARKER_OPEN, i);
    }
    forall i: nat | Occurs(text, MARKER_CLOSE, i) ensures i == close {
      MarkerPositions(before, value, after, MARKER_CLOSE, i);
    }
    MarkersStartOnce();
    SingleMatch(text, MARKER_OPEN, |before|);
    SingleMatch(text, MARKER_CLOSE, close);
  }

  lemma MarkersStartOnce()
    ensures StartsOnce(MARKER_OPEN) && StartsOnce(MARKER_CLOSE)
  {
  }

  lemma RenderedParts(before: string, value: string, after: string)
    ensures var text, close := Rendered(before, value, after), |before + MARKER_OPEN + value|;
      && Occurs(text, MARKER_OPEN, |before|)
      && Occurs(text, MARKER_CLOSE, close)
      && text[..|before|] == before
      && text[|before| + |MARKER_OPEN|..close] == value
      && text[close + |MARKER_CLOSE|..] == after
  {
    hide MARKER_OPEN, MARKER_CLOSE;
  }

  // ----- what the parser accepts

  lemma {:induction false} TrimKeeps(s: string, c: char)
    requires c in s && !IsSpace(c)
    ensures c in Trim(s)
  {
    TrimStartKeeps(s, c);
    TrimEndKeeps(TrimStart(s), c);
  }

  lemma {:induction false} TrimStartKeeps(s: string, c: char)
    requires c in s && !IsSpace(c)
    ensures c in TrimStart(s)
  {
    if IsSpace(s[0]) {
      assert s == [s[0]] + s[1..];
      TrimStartKeeps(s[1..], c);
    }
  }

  lemma {:induction false} TrimEndKeeps(s: string, c: char)
    requires c in s && !IsSpace(c)
    ensures c in TrimEnd(s)
  {
    if IsSpace(s[|s| - 1]) {
      assert s == s[..|s| - 1] + [s[|s| - 1]];
      TrimEndKeeps(s[..|s| - 1], c);
    }
  }

  lemma SignalHasNoAngle(text: string)
    requires ParseSignal(text).Some?
    ensures '<' !in text
  {
  }

  lemma MarkerTextHasNoAngle(marker: string)
    requires ParseMarkerText(marker).Ok?
    ensures '<' !in marker
  {
    hide ParseSignal, Trim, IsSpace;
    AngleIsVisible();
    if ':' !in marker {
      SignalHasNoAngle(marker);
    } else {
      var p := FirstColon(marker);
      assert marker == marker[..p] + [':'] + marker[p + 1..];
      if '<' in marker[..p] {
        TrimKeeps(marker[..p], '<');
      }
      if '<' in marker[p + 1..] {
        TrimKeeps(marker[p + 1..], '<');
      }
    }
  }

  /** A marker that parses holds no '<', so no marker either. */
  lemma MarkerHasNoAngle(value: string)
    requires ParseMarker(value).Ok?
    ensures '<' !in value
  {
    hide ParseMarkerText, Trim, IsSpace;
    AngleIsVisible();
    MarkerTextHasNoAngle(Trim(value));
    if '<' in value {
      TrimKeeps(value, '<');
    }
  }

  lemma AngleIsVisible()
    ensures !IsSpace('<')
  {
  }

  /** Every accepted text is a rendered response: marker-free text around one legal marker. */
  lemma AcceptedIsRendered(text: string, allowed: set<Signal>) returns (before: string, value: string, after: string)
    requires ParseParticipantResponse(text, allowed).Ok?
    ensures text == Rendered(before, value, after)
    ensures MarkerFree(before) && MarkerFree(after) && '<' !in value
    ensures ParseParticipantResponse(text, allowed) == Judge(before, value, after, allowed)
  {
    hide ParseMarker, Occurs, MatchIndices;
    var open := MatchIndices(text, MARKER_OPEN, 0)[0];
    var close := MatchIndices(text, MARKER_CLOSE, 0)[0];
    SingleMatch(text, MARKER_OPEN, open);
    SingleMatch(text, MARKER_CLOSE, close);
    before, value, after := Around(text, open, close);
    MarkerHasNoAngle(value);
    FreeAround(before, MARKER_OPEN + value + MARKER_CLOSE, after, open, close);
  }

  lemma Around(text: string, open: nat, close: nat) returns (before: string, value: string, after: string)
    requires Occurs(text, MARKER_OPEN, open) && Occurs(text, MARKER_CLOSE, close)
    requires open + |MARKER_OPEN| <= close
    ensures before == text[..open] && value == text[open + |MARKER_OPEN|..close]
    ensures after == text[close + |MARKER_CLOSE|..]
    ensures text == Rendered(before, value, after)
    ensures text == before + (MARKER_OPEN + value + MARKER_CLOSE) + after
    ensures |before| == open && |before + (MARKER_OPEN + value + MARKER_CLOSE)| > close > open
  {
    hide MARKER_OPEN, MARKER_CLOSE;
    var a, b, c, d := open, open + |MARKER_OPEN|, close, close + |MARKER_CLOSE|;
    MarkersAreNonempty();
    before, value, after := text[..a], text[b..c], text[d..];
    CutInFive(text, a, b, c, d);
    assert text[a..b] == MARKER_OPEN && text[c..d] == MARKER_CLOSE;
  }

  lemma MarkersAreNonempty()
    ensures MARKER_OPEN != "" && MARKER_CLOSE != ""
  {
  }

  lemma CutInFive(text: string, a: nat, b: nat, c: nat, d: nat)
    requires a <= b <= c <= d <= |text|
    ensures text == text[..a] + text[a..b] + text[b..c] + text[c..d] + text[d..]
    ensures text == text[..a] + (text[a..b] + text[b..c] + text[c..d]) + text[d..]
  {
  }

  lemma FreeAround(before: string, middle: string, after: string, open: nat, close: nat)
    requires OccursOnlyAt(before + middle + after, MARKER_OPEN, open)
    requires OccursOnlyAt(before + middle + after, MARKER_CLOSE, close)
    requires |before| <= open < |before + middle| && |before| <= close < |before + middle|
    ensures MarkerFree(before) && MarkerFree(after)
  {
    assert "" + before + (middle + after) == before + middle + after;
    assert before + middle + after + "" == before + middle + after;
    forall i: nat, pattern | pattern in {MARKER_OPEN, MARKER_CLOSE}
      ensures !Occurs(before, pattern, i) && !Occurs(after, pattern, i)
    {
      if Occurs(before, pattern, i) {
        OccursInWhole("", before, middle + after, pattern, i);
      }
      if Occurs(after, pattern, i) {
        OccursInWhole(before + middle, after, "", pattern, i);
      }
    }
  }

  /** ... and it is one in only one way. */
  lemma RenderingIsUnique(b: string, v: string, a: string, b': string, v': string, a': string)
    requires MarkerFree(b) && MarkerFree(a) && '<' !in v
    requires MarkerFree(b') && MarkerFree(a') && '<' !in v'
    requires Rendered(b, v, a) == Rendered(b', v', a')
    ensures b == b' && v == v' && a == a'
  {
    var text := Rendered(b, v, a);
    assert Occurs(text, MARKER_OPEN, |b|);
    assert Occurs(text, MARKER_CLOSE, |b + MARKER_OPEN + v|);
    MarkerPositions(b', v', a', MARKER_OPEN, |b|);
    MarkerPositions(b', v', a', MARKER_CLOSE, |b + MARKER_OPEN + v|);
    SameParts(b, v, a, b', v', a');
  }

  lemma SameParts(b: string, v: string, a: string, b': string, v': string, a': string)
    requires |b| == |b'| && |v| == |v'| && Rendered(b, v, a) == Rendered(b', v', a')
    ensures b == b' && v == v' && a == a'
  {
    var text, close := Rendered(b, v, a), |b + MARKER_OPEN + v|;
    assert b == text[..|b|] && b' == text[..|b|];
    assert v == text[|b| + |MARKER_OPEN|..close] && v' == text[|b| + |MARKER_OPEN|..close];
    assert a == text[close + |MARKER_CLOSE|..] && a' == text[close + |MARKER_CLOSE|..];
  }

  // ----- round trip

  function MarkerText(signal: Signal, reason: Option<string>): string {
    SignalText(signal) + if reason.Some? then ":" + reason.value else ""
  }

  predicate LegalMarker(signal: Signal, reason: Option<string>) {
    reason.Some? ==> signal == SignalBlocked && LegalReason(reason.value)
  }

  lemma SignalIsTrimmed(signal: Signal)
    ensures Trimmed(SignalText(signal))
  {
  }

  lemma SignalHasNoColon(signal: Signal)
    ensures ':' !in SignalText(signal)
  {
  }

  lemma PlainReason(reason: string)
    requires LegalReason(reason)
    ensures Trimmed(reason) && Trimmed("BLOCKED:" + reason) && '<' !in "BLOCKED:" + reason
    ensures FirstColon("BLOCKED:" + reason) == 7
  {
    assert reason[0] in reason && reason[|reason| - 1] in reason;
    var marker := "BLOCKED:" + reason;
    assert marker[7] == ':' && marker[|marker| - 1] == reason[|reason| - 1];
    assert forall i | 0 <= i < 7 :: marker[i] == "BLOCKED"[i];
  }

  lemma MarkerRoundTrip(signal: Signal, reason: Option<string>)
    requires LegalMarker(signal, reason)
    ensures ParseMarker(MarkerText(signal, reason)) == Ok((signal, reason))
    ensures '<' !in MarkerText(signal, reason)
  {
    hide Trim, LegalReason, FirstColon;
    var marker := MarkerText(signal, reason);
    SignalIsTrimmed(signal);
    SignalHasNoColon(signal);
    SignalRoundTrip(SignalText(signal), signal);
    SignalHasNoAngle(SignalText(signal));
    TrimIsProjection(marker);
    if reason.Some? {
      PlainReason(reason.value);
      assert marker == "BLOCKED:" + reason.value;
      TrimIsProjection(reason.value);
      TrimIsProjection("BLOCKED");
      assert marker[..7] == "BLOCKED" && marker[8..] == reason.value;
    } else {
      assert marker == SignalText(signal);
    }
  }

  /** A response rendered with any allowed signal, a legal reason and marker-free text around it is
      read back exactly: signal, reason and the trimmed, joined body. */
  lemma ResponseRoundTrip(before: string, signal: Signal, reason: Option<string>, after: string,
                          allowed: set<Signal>)
    requires MarkerFree(before) && MarkerFree(after)
    requires signal in allowed && LegalMarker(signal, reason)
    ensures ParseParticipantResponse(Rendered(before, MarkerText(signal, reason), after), allowed)
      == Ok(Response(signal, reason, JoinBody(Trim(before), Trim(after))))
  {
    hide ParseMarker, MarkerText, Trim, ParseParticipantResponse;
    MarkerRoundTrip(signal, reason);
    ParseRendered(before, MarkerText(signal, reason), after, allowed);
  }

  /** The body is what is said around the marker, in that order, with a blank line between two parts that
      both say something. */
  lemma BodyIsInOrder(before: string, signal: Signal, reason: Option<string>, after: string,
                      allowed: set<Signal>)
    requires MarkerFree(before) && MarkerFree(after)
    requires signal in allowed && LegalMarker(signal, reason)
    ensures var r := ParseParticipantResponse(Rendered(before, MarkerText(signal, reason), after), allowed);
      && r.Ok?
      && (Blank(before) ==> r.value.body == Trim(after))
      && (Blank(after) ==> r.value.body == Trim(before))
      && (!Blank(before) && !Blank(after) ==> r.value.body == Trim(before) + "\n\n" + Trim(after))
  {
    hide ParseParticipantResponse, Rendered, MarkerText, MarkerFree, Trim, LegalMarker;
    ResponseRoundTrip(before, signal, reason, after, allowed);
  }

  /** What the parser returns is allowed and legal, so a refusal never has an empty reason. */
  lemma ParsedIsLegal(text: string, allowed: set<Signal>)
    requires ParseParticipantResponse(text, allowed).Ok?
    ensures var r := ParseParticipantResponse(text, allowed).value;
      r.signal in allowed && LegalMarker(r.signal, r.blockedReason)
  {
    hide Trim, MatchIndices, Occurs, JoinBody;
    var _, value, _ := AcceptedIsRendered(text, allowed);
    assert ParseMarker(value).Ok?;
  }
}
