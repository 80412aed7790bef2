/** The delivery identity: a block at the end of each prompt from which the request hash of a turn
    can be read back after a crash. */
module Deliveries {
  import opened Wrappers
  import opened Text
  import opened Json

  const HEADING := "Coordinator" + " delivery identity" + " for crash recovery:"
  const JSON_PREFIX := HEADING + "\n```json\n"
  const JSON_SUFFIX := "\n```\n"
  const EMPTY_FENCE := HEADING + "\n```json\n```\n"

  /** The JSON parser, as far as the encoded identity is concerned. */
  const PARSE_JSON: string -> Option<Value>

  function Count(text: string): nat {
    |MatchIndices(text, HEADING, 0)|
  }

  /** From the heading to the end of the text. */
  function Marked(text: string): string
    requires Count(text) > 0
  {
    var start := MatchIndices(text, HEADING, 0)[0];
    MatchesOccur(text, HEADING, 0);
    assert start in MatchIndices(text, HEADING, 0);
    text[start..]
  }

  predicate StartsWith(text: string, prefix: string) {
    prefix <= text
  }

  predicate EndsWith(text: string, suffix: string) {
    |suffix| <= |text| && text[|text| - |suffix|..] == suffix
  }

  /** The fence is empty: its prefix and suffix share a line end, and cutting both off fails. */
  predicate EmptyFence(text: string) {
    Count(text) > 0 && Marked(text) == EMPTY_FENCE
  }

  lemma FirstOccurs(text: string)
    requires Count(text) > 0
    ensures Occurs(text, HEADING, MatchIndices(text, HEADING, 0)[0])
  {
    MatchesOccur(text, HEADING, 0);
    assert MatchIndices(text, HEADING, 0)[0] in MatchIndices(text, HEADING, 0);
  }

  /** The one family of texts on which prefix and suffix overlap. */
  lemma OverlapIsEmptyFence(text: string)
    requires Count(text) > 0
    ensures EmptyFence(text) <==>
      && StartsWith(Marked(text), JSON_PREFIX)
      && EndsWith(Marked(text), JSON_SUFFIX)
      && |Marked(text)| < |JSON_PREFIX| + |JSON_SUFFIX|
  {
    hide Count, Marked;
    OverlapOf(Marked(text));
  }

  lemma OverlapOf(marked: string)
    ensures marked == EMPTY_FENCE <==>
      && StartsWith(marked, JSON_PREFIX)
      && EndsWith(marked, JSON_SUFFIX)
      && |marked| < |JSON_PREFIX| + |JSON_SUFFIX|
  {
    hide HEADING;
    var empty := EMPTY_FENCE;
    assert empty == JSON_PREFIX + "```\n";
    assert empty[|empty| - 5..] == "\n```\n";
    if StartsWith(marked, JSON_PREFIX) && EndsWith(marked, JSON_SUFFIX)
       && |marked| < |JSON_PREFIX| + |JSON_SUFFIX|
    {
      Overlapping(marked);
    }
  }

  /** A line end is the only proper overlap of the prefix and the suffix. */
  lemma Overlapping(marked: string)
    requires StartsWith(marked, JSON_PREFIX) && EndsWith(marked, JSON_SUFFIX)
    requires |marked| < |JSON_PREFIX| + |JSON_SUFFIX|
    ensures marked == JSON_PREFIX + "```\n"
  {
    hide HEADING;
    var extra := |marked| - |JSON_PREFIX|;
    var k := 4 + extra;
    assert marked[|marked| - 5..][0] == '\n';
    assert marked[|HEADING| + k] == JSON_PREFIX[|HEADING| + k] == "\n```json\n"[k];
    assert extra == 4;
    assert marked == marked[..|marked| - 5] + JSON_SUFFIX;
  }

  // ----- reading the identity

  predicate AfterLineEnd(text: string)
    requires Count(text) > 0
  {
    FirstOccurs(text);
    var start := MatchIndices(text, HEADING, 0)[0];
    start > 0 ==> text[start - 1] == '\n'
  }

  /** The request hash in a decoded identity. */
  function HashField(v: Option<Value>): Option<string> {
    if v.Some? && v.value.Object? && v.value.fields.Keys == {"request_hash"}
       && v.value.fields["request_hash"].String? && !Blank(v.value.fields["request_hash"].s)
    then Some(v.value.fields["request_hash"].s)
    else None
  }

  /** Cutting off both ends of the fence panics when they overlap. */
  function ParseDeliveryRequestHash(text: string): Attempt<Option<string>> {
    if Count(text) == 0 || !AfterLineEnd(text) then Returns(None)
    else
      var marked := Marked(text);
      if !StartsWith(marked, JSON_PREFIX) || !EndsWith(marked, JSON_SUFFIX) then Returns(None)
      else if |marked| < |JSON_PREFIX| + |JSON_SUFFIX| then Panics
      else
        var encoded := marked[|JSON_PREFIX|..|marked| - |JSON_SUFFIX|];
        if encoded == "" || '\n' in encoded || '\r' in encoded then Returns(None)
        else Returns(HashField(PARSE_JSON(encoded)))
  }

  /** One line of JSON, an object with the request hash and nothing else. */
  predicate IsEncoded(encoded: string, hash: string) {
    && encoded != "" && '\n' !in encoded && '\r' !in encoded
    && PARSE_JSON(encoded) == Some(Object(map["request_hash" := String(hash)]))
    && !Blank(hash)
  }

  lemma FieldIsHash(v: Option<Value>, hash: string)
    ensures HashField(v) == Some(hash) <==>
      v == Some(Object(map["request_hash" := String(hash)])) && !Blank(hash)
  {
    hide Blank;
    if HashField(v) == Some(hash) {
      assert v.value.fields == map["request_hash" := String(hash)];
    }
  }

  /** The text ends with an identity for this hash, from its first heading on, which starts a line. */
  ghost predicate EndsWithIdentity(text: string, front: string, encoded: string, hash: string) {
    && text == front + JSON_PREFIX + encoded + JSON_SUFFIX
    && (forall i: nat | i < |front| :: !Occurs(text, HEADING, i))
    && (front == "" || front[|front| - 1] == '\n')
    && IsEncoded(encoded, hash)
  }

  lemma FenceIsCut(marked: string, p: string, q: string, encoded: string)
    ensures marked == p + encoded + q <==>
      && StartsWith(marked, p) && EndsWith(marked, q) && |p| + |q| <= |marked|
      && encoded == marked[|p|..|marked| - |q|]
  {
    if marked == p + encoded + q {
      assert marked[..|p|] == p && marked[|p|..|marked| - |q|] == encoded && marked[|marked| - |q|..] == q;
    }
    if StartsWith(marked, p) && EndsWith(marked, q) && |p| + |q| <= |marked| {
      assert marked == p + marked[|p|..|marked| - |q|] + q;
    }
  }

  /** What is between the ends of the fence, if there is room for both. */
  predicate HoldsHash(marked: string, hash: string) {
    && StartsWith(marked, JSON_PREFIX)
    && EndsWith(marked, JSON_SUFFIX)
    && |JSON_PREFIX| + |JSON_SUFFIX| <= |marked|
    && IsEncoded(marked[|JSON_PREFIX|..|marked| - |JSON_SUFFIX|], hash)
  }

  predicate IsFence(marked: string, encoded: string, hash: string) {
    marked == JSON_PREFIX + encoded + JSON_SUFFIX && IsEncoded(encoded, hash)
  }

  lemma FenceHoldsHash(marked: string, hash: string)
    ensures HoldsHash(marked, hash) <==> exists encoded :: IsFence(marked, encoded, hash)
  {
    hide JSON_PREFIX, JSON_SUFFIX, StartsWith, EndsWith, IsEncoded;
    if HoldsHash(marked, hash) {
      var encoded := marked[|JSON_PREFIX|..|marked| - |JSON_SUFFIX|];
      FenceIsCut(marked, JSON_PREFIX, JSON_SUFFIX, encoded);
      assert IsFence(marked, encoded, hash);
    }
    if encoded :| IsFence(marked, encoded, hash) {
      FenceIsCut(marked, JSON_PREFIX, JSON_SUFFIX, encoded);
    }
  }

  lemma MarkedStarts(text: string, start: nat)
    requires Count(text) > 0 && start == MatchIndices(text, HEADING, 0)[0] && start <= |text|
    ensures Marked(text) == text[start..]
    ensures AfterLineEnd(text) <==> start == 0 || text[start - 1] == '\n'
  {
    hide MatchIndices, HEADING, Occurs;
  }

  /** What the parser reads, once it knows where the first heading is. */
  lemma ParsesFrom(text: string, start: nat, hash: string)
    requires Count(text) > 0 && start == MatchIndices(text, HEADING, 0)[0] && start <= |text|
    ensures ParseDeliveryRequestHash(text) == Returns(Some(hash)) <==>
      (start == 0 || text[start - 1] == '\n') && HoldsHash(text[start..], hash)
  {
    hide MatchIndices, HEADING, JSON_PREFIX, JSON_SUFFIX, HashField, StartsWith, EndsWith, Occurs, Blank,
      IsEncoded, Marked, AfterLineEnd;
    var marked := text[start..];
    MarkedStarts(text, start);
    if |JSON_PREFIX| + |JSON_SUFFIX| <= |marked| {
      EncodedIsRead(marked[|JSON_PREFIX|..|marked| - |JSON_SUFFIX|], hash);
    }
  }

  lemma EncodedIsRead(encoded: string, hash: string)
    ensures IsEncoded(encoded, hash) <==>
      encoded != "" && '\n' !in encoded && '\r' !in encoded && HashField(PARSE_JSON(encoded)) == Some(hash)
  {
    hide HashField, Blank;
    FieldIsHash(PARSE_JSON(encoded), hash);
  }

  lemma ParsedEndsWithIdentity(text: string, hash: string) returns (front: string, encoded: string)
    requires ParseDeliveryRequestHash(text) == Returns(Some(hash))
    ensures EndsWithIdentity(text, front, encoded, hash)
  {
    hide MatchIndices, Occurs, HEADING, JSON_PREFIX, JSON_SUFFIX, ParseDeliveryRequestHash, IsEncoded,
      HoldsHash, EndsWithIdentity;
    assert Count(text) > 0 by { ParsedIsCounted(text); }
    HeadingStartsOnce();
    var start := MatchIndices(text, HEADING, 0)[0];
    FirstOccurs(text);
    FirstMatch(text, HEADING, start);
    OccursInside(text, start);
    ParsesFrom(text, start, hash);
    FenceHoldsHash(text[start..], hash);
    encoded :| IsFence(text[start..], encoded, hash);
    front := text[..start];
    IdentityEnds(text, start, encoded, hash);
  }

  lemma IdentityEnds(text: string, start: nat, encoded: string, hash: string)
    requires start <= |text| && IsFence(text[start..], encoded, hash)
    requires start == 0 || text[start - 1] == '\n'
    requires forall i: nat | i < start :: !Occurs(text, HEADING, i)
    ensures EndsWithIdentity(text, text[..start], encoded, hash)
  {
    hide Occurs, HEADING, JSON_PREFIX, JSON_SUFFIX, IsEncoded;
    assert text == text[..start] + text[start..];
    assert text == text[..start] + JSON_PREFIX + encoded + JSON_SUFFIX;
  }

  lemma IdentityIsParsed(text: string, front: string, encoded: string, hash: string)
    requires EndsWithIdentity(text, front, encoded, hash)
    ensures ParseDeliveryRequestHash(text) == Returns(Some(hash))
  {
    hide MatchIndices, Occurs, HEADING, JSON_PREFIX, JSON_SUFFIX, ParseDeliveryRequestHash, IsEncoded,
      HoldsHash;
    HeadingStartsOnce();
    IdentityOccurs(text, front, encoded);
    FirstMatch(text, HEADING, |front|);
    ParsesFrom(text, |front|, hash);
    assert text[|front|..] == JSON_PREFIX + encoded + JSON_SUFFIX;
    assert IsFence(text[|front|..], encoded, hash);
    FenceHoldsHash(text[|front|..], hash);
    assert text[..|front|] == front;
  }

  /** A text has a request hash exactly if it ends with an identity for it. */
  lemma HashIsOfIdentity(text: string, hash: string)
    ensures ParseDeliveryRequestHash(text) == Returns(Some(hash)) <==>
      exists front, encoded :: EndsWithIdentity(text, front, encoded, hash)
  {
    hide ParseDeliveryRequestHash, EndsWithIdentity;
    if ParseDeliveryRequestHash(text) == Returns(Some(hash)) {
      var front, encoded := ParsedEndsWithIdentity(text, hash);
    }
    if front, encoded :| EndsWithIdentity(text, front, encoded, hash) {
      IdentityIsParsed(text, front, encoded, hash);
    }
  }

  lemma ParsedIsCounted(text: string)
    requires ParseDeliveryRequestHash(text) != Returns(None)
    ensures Count(text) > 0
  {
    hide HEADING;
  }

  lemma OccursInside(text: string, i: nat)
    requires Occurs(text, HEADING, i)
    ensures i <= |text|
  {
    hide HEADING;
  }

  lemma IdentityOccurs(text: string, front: string, encoded: string)
    requires text == front + JSON_PREFIX + encoded + JSON_SUFFIX
    ensures Occurs(text, HEADING, |front|)
  {
    hide HEADING, JSON_SUFFIX;
    assert HEADING <= JSON_PREFIX;
    assert text[|front|..] == JSON_PREFIX + encoded + JSON_SUFFIX;
    assert text[|front|..|front| + |HEADING|] == HEADING;
  }

  /** The texts on which the slice fails: the heading stands at the start of a line, and nothing but an
      empty fence follows it. */
  predicate SliceFails(text: string) {
    Count(text) > 0 && AfterLineEnd(text) && EmptyFence(text)
  }

  /** The parser panics on exactly these texts. */
  lemma ParserPanicsOnEmptyFence(text: string)
    ensures ParseDeliveryRequestHash(text).Panics? <==> SliceFails(text)
  {
    hide Count, Marked, AfterLineEnd, EmptyFence, HEADING;
    if Count(text) > 0 {
      OverlapIsEmptyFence(text);
    }
  }

  /** There are such texts. */
  lemma EmptyFencePanics()
    ensures SliceFails(EMPTY_FENCE) && ParseDeliveryRequestHash(EMPTY_FENCE) == Panics
  {
    hide MatchIndices, EMPTY_FENCE, HEADING, Occurs, ParseDeliveryRequestHash;
    var text := EMPTY_FENCE;
    HeadingStartsOnce();
    forall i: nat | Occurs(text, HEADING, i) ensures i == 0 {
      EmptyFenceHasOneHeading(i);
    }
    EmptyFenceStartsWithHeading();
    SingleMatch(text, HEADING, 0);
    assert text[0..] == text;
    ParserPanicsOnEmptyFence(text);
  }

  lemma EmptyFenceStartsWithHeading()
    ensures Occurs(EMPTY_FENCE, HEADING, 0)
  {
    hide HEADING;
  }

  lemma EmptyFenceHasOneHeading(i: nat)
    requires Occurs(EMPTY_FENCE, HEADING, i)
    ensures i == 0
  {
    hide HEADING;
    HeadingStartsOnce();
    OccursAt(EMPTY_FENCE, HEADING, i, 0);
  }

  // ----- writing and reading back

  /** A hash as it is written: lower-case hex digits. */
  predicate IsHash(hash: string) {
    hash != "" && forall c | c in hash :: '0' <= c <= '9' || 'a' <= c <= 'f'
  }

  function Encoded(hash: string): string {
    "{\"request_hash\":\"" + hash + "\"}"
  }

  /** The block appended to a prompt. */
  function Block(hash: string): string {
    JSON_PREFIX + Encoded(hash) + JSON_SUFFIX
  }

  /** The parser reads back the one object that was written. */
  predicate CodecFits(hash: string) {
    PARSE_JSON(Encoded(hash)) == Some(Object(map["request_hash" := String(hash)]))
  }

  lemma HeadingStartsOnce()
    ensures StartsOnce(HEADING) && HEADING[0] == 'C'
  {
    var rest := "oordinator" + " delivery identity" + " for crash recovery:";
    assert HEADING == "C" + rest;
    assert 'C' !in "oordinator" && 'C' !in " delivery identity" && 'C' !in " for crash recovery:";
    assert 'C' !in rest;
    forall i | 0 < i < |HEADING| ensures HEADING[i] != 'C' {
      assert HEADING[i] == rest[i - 1];
      assert rest[i - 1] in rest;
    }
  }

  lemma HeadingHasNoLineEnd()
    ensures '\n' !in HEADING
  {
    assert '\n' !in "Coordinator" && '\n' !in " delivery identity" && '\n' !in " for crash recovery:";
  }

  lemma NoCapitalInBlock(hash: string, i: nat)
    requires IsHash(hash) && |HEADING| <= i < |Block(hash)|
    ensures Block(hash)[i] != 'C'
  {
    hide HEADING;
    var rest := "\n```json\n" + Encoded(hash) + JSON_SUFFIX;
    assert Block(hash) == HEADING + rest;
    var k := i - |HEADING|;
    assert Block(hash)[i] == rest[k];
    NoCapitalIn(hash);
    assert rest[k] in rest;
  }

  lemma NoCapitalIn(hash: string)
    requires IsHash(hash)
    ensures 'C' !in "\n```json\n" + Encoded(hash) + JSON_SUFFIX
    ensures '\n' !in Encoded(hash) && '\r' !in Encoded(hash)
  {
    hide HEADING;
    assert 'C' !in hash && '\n' !in hash && '\r' !in hash;
    assert 'C' !in "\n```json\n" && 'C' !in JSON_SUFFIX;
    assert 'C' !in "{\"request_hash\":\"" && 'C' !in "\"}";
  }

  /** In a prompt whose body has no heading, the block's heading is the only one. */
  lemma OnlyHeading(body: string, hash: string)
    requires Count(body) == 0 && IsHash(hash)
    ensures MatchIndices(body + "\n" + Block(hash), HEADING, 0) == [|body| + 1]
  {
    hide MatchIndices, HEADING, Encoded, Occurs;
    var text := body + "\n" + Block(hash);
    HeadingStartsOnce();
    forall i: nat | Occurs(text, HEADING, i) ensures i == |body| + 1 {
      HeadingIsTheBlocks(body, hash, i);
    }
    HeadingIsThere(body, hash);
    SingleMatch(text, HEADING, |body| + 1);
  }

  lemma HeadingIsThere(body: string, hash: string)
    ensures Occurs(body + "\n" + Block(hash), HEADING, |body| + 1)
  {
    hide HEADING, Encoded;
    var text := body + "\n" + Block(hash);
    assert text[|body| + 1..|body| + 1 + |HEADING|] == HEADING;
  }

  lemma HeadingIsTheBlocks(body: string, hash: string, i: nat)
    requires Count(body) == 0 && IsHash(hash)
    requires Occurs(body + "\n" + Block(hash), HEADING, i)
    ensures i == |body| + 1
  {
    hide MatchIndices, Block, HEADING;
    var text := body + "\n" + Block(hash);
    HeadingStartsOnce();
    HeadingHasNoLineEnd();
    OccursAt(text, HEADING, i, 0);
    MatchesAreOccurrences(body, HEADING);
    assert MatchIndices(body, HEADING, 0) == [];
    assert !Occurs(body, HEADING, i);
    assert text == "" + body + ("\n" + Block(hash));
    if i <= |body| {
      if i + |HEADING| <= |body| {
        OccursWithin("", body, "\n" + Block(hash), HEADING, i);
      } else {
        LineEndCannotBeCovered(text, i, |body|);
      }
    } else if i > |body| + 1 {
      BlockAfterHeading(body, hash, i);
    }
  }

  lemma LineEndCannotBeCovered(text: string, i: nat, p: nat)
    requires Occurs(text, HEADING, i) && p < |text| && text[p] == '\n'
    ensures !(i <= p < i + |HEADING|)
  {
    hide HEADING;
    HeadingHasNoLineEnd();
    if i <= p < i + |HEADING| {
      OccursAt(text, HEADING, i, p - i);
    }
  }

  lemma BlockAfterHeading(body: string, hash: string, i: nat)
    requires IsHash(hash) && |body| + 1 < i < |body + "\n" + Block(hash)|
    ensures (body + "\n" + Block(hash))[i] != 'C'
  {
    hide HEADING;
    var k := i - |body| - 1;
    assert (body + "\n" + Block(hash))[i] == Block(hash)[k];
    if k < |HEADING| {
      assert Block(hash)[k] == HEADING[k];
      HeadingStartsOnce();
      HeadingHasNoLineEnd();
    } else {
      NoCapitalInBlock(hash, k);
    }
  }

  lemma HashIsVisible(hash: string)
    requires IsHash(hash)
    ensures !Blank(hash)
  {
    assert hash[0] in hash;
    TrimIsProjection(hash);
    assert hash[|hash| - 1] in hash;
    assert Trimmed(hash);
  }

  /** For any body without the heading, the appended block parses back to the same request hash. */
  lemma DeliveryRoundTrip(body: string, hash: string)
    requires Count(body) == 0 && IsHash(hash) && CodecFits(hash)
    ensures ParseDeliveryRequestHash(body + "\n" + Block(hash)) == Returns(Some(hash))
    ensures Count(body + "\n" + Block(hash)) == 1
  {
    hide MatchIndices, HEADING, Occurs;
    var text := body + "\n" + Block(hash);
    OnlyHeading(body, hash);
    assert Marked(text) == Block(hash);
    assert Block(hash)[|JSON_PREFIX|..|Block(hash)| - |JSON_SUFFIX|] == Encoded(hash);
    assert EndsWith(Block(hash), JSON_SUFFIX);
    OverlapIsEmptyFence(text);
    NoCapitalIn(hash);
    HashIsVisible(hash);
    assert text[|body|] == '\n';
  }

  // ----- the identity of a turn

  function ArrayField(v: Value, key: string): seq<Value> {
    match GetArray(v, key)
    case Some(values) => values
    case None => []
  }

  predicate IsUserMessage(item: Value) {
    GetString(item, "type") == Some("userMessage")
  }

  function ContentTexts(inputs: seq<Value>): seq<string> {
    if inputs == [] then []
    else
      (match GetString(inputs[0], "text")
       case Some(text) => [text]
       case None => [])
      + ContentTexts(inputs[1..])
  }

  function UserTexts(item: Value): seq<string> {
    ContentTexts(ArrayField(item, "content"))
  }

  function Headings(texts: seq<string>): nat {
    if texts == [] then 0 else Count(texts[0]) + Headings(texts[1..])
  }

  /** The first text with a heading. */
  function Headed(texts: seq<string>): (text: string)
    requires Headings(texts) > 0
    ensures text in texts && Count(text) > 0
  {
    if Count(texts[0]) > 0 then texts[0] else Headed(texts[1..])
  }

  function MessageHash(item: Value): Attempt<Option<string>> {
    var texts := UserTexts(item);
    if !IsUserMessage(item) || Headings(texts) != 1 then Returns(None)
    else ParseDeliveryRequestHash(Headed(texts))
  }

  /** The items on which reading the hash fails. */
  predicate MessageFails(item: Value) {
    && IsUserMessage(item)
    && Headings(UserTexts(item)) == 1
    && SliceFails(Headed(UserTexts(item)))
  }

  lemma MessagePanicsExactly(item: Value)
    ensures MessageHash(item).Panics? <==> MessageFails(item)
  {
    hide UserTexts, Headings, Headed, SliceFails, ParseDeliveryRequestHash;
    if Headings(UserTexts(item)) == 1 {
      ParserPanicsOnEmptyFence(Headed(UserTexts(item)));
    }
  }

  /** All texts of the user messages among the items. */
  function AllTexts(items: seq<Value>): seq<string> {
    if items == [] then []
    else (if IsUserMessage(items[0]) then UserTexts(items[0]) else []) + AllTexts(items[1..])
  }

  function Hashes(hash: Option<string>): seq<string> {
    match hash
    case Some(h) => [h]
    case None => []
  }

  /** The hashes of the messages, read one after the other. */
  function MessageHashes(items: seq<Value>): Attempt<seq<string>> {
    if items == [] then Returns([])
    else
      match (MessageHash(items[0]), MessageHashes(items[1..]))
      case (Returns(first), Returns(rest)) => Returns(Hashes(first) + rest)
      case _ => Panics
  }

  function TurnHash(turn: Value): Attempt<Option<string>> {
    var items := ArrayField(turn, "items");
    match MessageHashes(items)
    case Panics => Panics
    case Returns(hashes) =>
      Returns(if Headings(AllTexts(items)) != 1 || |hashes| != 1 then None else Some(hashes[0]))
  }

  lemma {:induction false} HeadingsAdd(a: seq<string>, b: seq<string>)
    ensures Headings(a + b) == Headings(a) + Headings(b)
    ensures Headings(a + b) > 0 ==> Headed(a + b) == if Headings(a) > 0 then Headed(a) else Headed(b)
  {
    hide Count;
    if a == [] {
      assert a + b == b;
    } else {
      assert (a + b)[1..] == a[1..] + b;
      HeadingsAdd(a[1..], b);
    }
  }

  lemma {:induction false} HashesPanic(items: seq<Value>)
    ensures MessageHashes(items).Panics? <==> exists item | item in items :: MessageFails(item)
  {
    hide MessageHash, MessageFails;
    if items != [] {
      MessagePanicsExactly(items[0]);
      HashesPanic(items[1..]);
      assert items == [items[0]] + items[1..];
    }
  }

  lemma {:induction false} HashesAreOfHeading(items: seq<Value>)
    ensures Headings(AllTexts(items)) == 0 ==> MessageHashes(items) == Returns([])
    ensures Headings(AllTexts(items)) == 1 ==>
      match ParseDeliveryRequestHash(Headed(AllTexts(items)))
      case Panics => MessageHashes(items) == Panics
      case Returns(hash) => MessageHashes(items) == Returns(Hashes(hash))
  {
    hide Count, ParseDeliveryRequestHash, UserTexts, IsUserMessage;
    if items != [] {
      var first := if IsUserMessage(items[0]) then UserTexts(items[0]) else [];
      HashesAreOfHeading(items[1..]);
      HeadingsAdd(first, AllTexts(items[1..]));
      var rest := MessageHashes(items[1..]);
      assert rest.Returns? ==> Hashes(None) + rest.value == rest.value;
      var message := MessageHash(items[0]);
      assert message.Returns? ==> Hashes(message.value) + [] == Hashes(message.value);
    }
  }

  /** A turn carries the hash of the one heading among its user texts, however they are grouped into
      messages; with no heading or with several it carries none. Reading it panics exactly if one of
      its messages holds a single heading with an empty fence. */
  lemma TurnHashIsOfOneHeading(turn: Value)
    ensures var items := ArrayField(turn, "items");
      && (TurnHash(turn).Panics? <==> exists item | item in items :: MessageFails(item))
      && (Headings(AllTexts(items)) == 1 ==>
          TurnHash(turn) == ParseDeliveryRequestHash(Headed(AllTexts(items))))
      && (Headings(AllTexts(items)) != 1 && TurnHash(turn).Returns? ==> TurnHash(turn) == Returns(None))
  {
    hide ParseDeliveryRequestHash, MessageHashes, Headings, AllTexts, MessageFails, ArrayField;
    HashesPanic(ArrayField(turn, "items"));
    HashesAreOfHeading(ArrayField(turn, "items"));
  }

  // ----- finding the turn of a request

  /** The search reads this turn: it has an id that is not archived. */
  predicate Examined(turn: Value, archived: seq<string>) {
    GetString(turn, "id").Some? && GetString(turn, "id").value !in archived
  }

  predicate Carries(turn: Value, hash: string, archived: seq<string>) {
    Examined(turn, archived) && TurnHash(turn) == Returns(Some(hash))
  }

  /** The search ends at this turn: it carries the hash, or reading it panics. */
  predicate Decides(turn: Value, hash: string, archived: seq<string>) {
    Carries(turn, hash, archived) || (Examined(turn, archived) && TurnHash(turn).Panics?)
  }

  function FindTurnByRequestHash(turns: seq<Value>, hash: string, archived: seq<string>)
    : Attempt<Option<string>>
  {
    if turns == [] then Returns(None)
    else
      var last := turns[|turns| - 1];
      if Examined(last, archived) && TurnHash(last).Panics? then Panics
      else if Carries(last, hash, archived) then Returns(GetString(last, "id"))
      else FindTurnByRequestHash(turns[..|turns| - 1], hash, archived)
  }

  /** Turn `k` is the latest one at which the search ends. */
  predicate LatestDecides(turns: seq<Value>, hash: string, archived: seq<string>, k: nat) {
    && k < |turns|
    && Decides(turns[k], hash, archived)
    && forall n | k < n < |turns| :: !Decides(turns[n], hash, archived)
  }

  /** The search returns the latest unarchived turn that carries the hash, and nothing else; it panics
      exactly if reading an unarchived turn panics before that one is reached. */
  lemma {:induction false} FindsLatestCarrier(turns: seq<Value>, hash: string, archived: seq<string>, k: nat)
    ensures LatestDecides(turns, hash, archived, k) ==>
      FindTurnByRequestHash(turns, hash, archived) ==
        if Carries(turns[k], hash, archived) then Returns(GetString(turns[k], "id")) else Panics
    ensures FindTurnByRequestHash(turns, hash, archived) == Returns(None) <==>
      forall n | 0 <= n < |turns| :: !Decides(turns[n], hash, archived)
  {
    hide TurnHash;
    if turns != [] {
      var shorter, last := turns[..|turns| - 1], turns[|turns| - 1];
      FindsLatestCarrier(shorter, hash, archived, k);
      assert forall n | 0 <= n < |shorter| :: shorter[n] == turns[n];
    }
  }
}
