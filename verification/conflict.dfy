/** The streaming scanner for conflict markers, against its meaning in terms of lines. */
module Conflicts {
  import opened Wrappers

  newtype byte = x: int | 0 <= x < 256

  const NUL: byte := 0
  const LF: byte := 10
  const CR: byte := 13
  const LESS: byte := 60
  const EQUALS: byte := 61
  const GREATER: byte := 62

  // ----- what a conflict is

  /** The line begins with at least seven of this byte. */
  predicate BeginsWithSeven(line: seq<byte>, b: byte) {
    7 <= |line| && forall i | 0 <= i < 7 :: line[i] == b
  }

  predicate Opener(line: seq<byte>) {
    BeginsWithSeven(line, LESS)
  }

  predicate Separator(line: seq<byte>) {
    BeginsWithSeven(line, EQUALS) && forall i | 0 <= i < |line| :: line[i] == EQUALS
  }

  predicate Closer(line: seq<byte>) {
    BeginsWithSeven(line, GREATER)
  }

  /** Lines `i < j < k` open, separate and close one conflict. */
  predicate Conflict(lines: seq<seq<byte>>, i: nat, j: nat, k: nat) {
    && i < j < k < |lines|
    && Opener(lines[i])
    && Separator(lines[j])
    && Closer(lines[k])
    && forall n | i < n < k :: !Opener(lines[n])
  }

  function WithoutReturns(bytes: seq<byte>): seq<byte> {
    if bytes == [] then []
    else
      var last := bytes[|bytes| - 1];
      WithoutReturns(bytes[..|bytes| - 1]) + if last == CR then [] else [last]
  }

  function Split(bytes: seq<byte>): (lines: seq<seq<byte>>)
    ensures lines != []
  {
    if LF !in bytes then [bytes]
    else
      var p := FirstLineEnd(bytes);
      [bytes[..p]] + Split(bytes[p + 1..])
  }

  function FirstLineEnd(bytes: seq<byte>): (p: nat)
    requires LF in bytes
    ensures p < |bytes| && bytes[p] == LF && forall i | 0 <= i < p :: bytes[i] != LF
  {
    if bytes[0] == LF then 0 else FirstLineEnd(bytes[1..]) + 1
  }

  function Join(lines: seq<seq<byte>>): seq<byte>
    requires lines != []
  {
    if |lines| == 1 then lines[0] else lines[0] + [LF] + Join(lines[1..])
  }

  /** Splitting cuts at every line end and nowhere else. */
  lemma {:induction false} SplitCutsAtLineEnds(bytes: seq<byte>)
    ensures Join(Split(bytes)) == bytes
    ensures forall line | line in Split(bytes) :: LF !in line
  {
    if LF in bytes {
      var p := FirstLineEnd(bytes);
      SplitCutsAtLineEnds(bytes[p + 1..]);
      assert bytes == bytes[..p] + [LF] + bytes[p + 1..];
      assert Split(bytes)[1..] == Split(bytes[p + 1..]);
    }
  }

  /** The lines of a text, without carriage returns; the last one may be unterminated. */
  function Lines(bytes: seq<byte>): seq<seq<byte>> {
    Split(WithoutReturns(bytes))
  }

  ghost predicate HasConflictMarkers(bytes: seq<byte>) {
    NUL !in bytes && exists i, j, k :: Conflict(Lines(bytes), i, j, k)
  }

  // ----- the automaton, line by line

  datatype Stage = Outside | Ours | Separated

  /** The length of the leading run of one byte. */
  function LeadingRun(line: seq<byte>): nat {
    if line == [] then 0
    else if |line| == 1 then 1
    else
      var shorter := LeadingRun(line[..|line| - 1]);
      if shorter == |line| - 1 && line[|line| - 1] == line[0] then |line| else shorter
  }

  function First(line: seq<byte>): Option<byte> {
    if line == [] then None else Some(line[0])
  }

  function Advance(stage: Stage, first: Option<byte>, leading: nat, onlySame: bool): (Stage, bool) {
    if first == Some(LESS) && leading >= 7 then (Ours, false)
    else if stage == Ours && first == Some(EQUALS) && leading >= 7 && onlySame then (Separated, false)
    else if stage == Separated && first == Some(GREATER) && leading >= 7 then (Outside, true)
    else (stage, false)
  }

  function AdvanceLine(stage: Stage, line: seq<byte>): (Stage, bool) {
    Advance(stage, First(line), LeadingRun(line), LeadingRun(line) == |line|)
  }

  /** The automaton run over whole lines. */
  function Scan(lines: seq<seq<byte>>): (Stage, bool) {
    if lines == [] then (Outside, false)
    else
      var (stage, found) := Scan(lines[..|lines| - 1]);
      var (next, matched) := AdvanceLine(stage, lines[|lines| - 1]);
      (next, found || matched)
  }

  lemma {:induction false} LeadingRunCounts(line: seq<byte>)
    ensures LeadingRun(line) <= |line|
    ensures forall i | 0 <= i < LeadingRun(line) :: line[i] == line[0]
    ensures LeadingRun(line) < |line| ==> line[LeadingRun(line)] != line[0]
    ensures line != [] ==> 0 < LeadingRun(line)
  {
    if |line| > 1 {
      LeadingRunCounts(line[..|line| - 1]);
    }
  }

  lemma AdvanceLineMeans(stage: Stage, line: seq<byte>)
    ensures AdvanceLine(stage, line) ==
      if Opener(line) then (Ours, false)
      else if stage == Ours && Separator(line) then (Separated, false)
      else if stage == Separated && Closer(line) then (Outside, true)
      else (stage, false)
  {
    LeadingRunCounts(line);
  }

  lemma {:induction false} OpenedLeads(lines: seq<seq<byte>>, i: nat)
    requires i < |lines| && Opener(lines[i])
    requires forall n | i < n < |lines| :: !Opener(lines[n])
    ensures Scan(lines).0 != Outside || Scan(lines).1
  {
    var shorter, line := lines[..|lines| - 1], lines[|lines| - 1];
    AdvanceLineMeans(Scan(shorter).0, line);
    if i < |shorter| {
      OpenedLeads(shorter, i);
    }
  }

  lemma {:induction false} SeparatedLeads(lines: seq<seq<byte>>, i: nat, j: nat)
    requires i < j < |lines| && Opener(lines[i]) && Separator(lines[j])
    requires forall n | i < n < |lines| :: !Opener(lines[n])
    ensures Scan(lines).0 == Separated || Scan(lines).1
  {
    var shorter, line := lines[..|lines| - 1], lines[|lines| - 1];
    AdvanceLineMeans(Scan(shorter).0, line);
    if j < |shorter| {
      SeparatedLeads(shorter, i, j);
    } else {
      OpenedLeads(shorter, i);
    }
  }

  lemma {:induction false} ConflictIsFound(lines: seq<seq<byte>>, i: nat, j: nat, k: nat)
    requires Conflict(lines, i, j, k)
    ensures Scan(lines).1
  {
    var shorter, line := lines[..|lines| - 1], lines[|lines| - 1];
    AdvanceLineMeans(Scan(shorter).0, line);
    if k < |shorter| {
      ConflictIsFound(shorter, i, j, k);
    } else {
      SeparatedLeads(shorter, i, j);
    }
  }

  /** The lines that brought the automaton where it is. */
  predicate Witness(lines: seq<seq<byte>>, i: nat, j: nat, k: nat) {
    var (stage, found) := Scan(lines);
    && (stage == Ours ==> i < |lines| && Opener(lines[i]) && NoOpenerAfter(lines, i))
    && (stage == Separated ==>
        i < j < |lines| && Opener(lines[i]) && Separator(lines[j]) && NoOpenerAfter(lines, i))
  }

  predicate NoOpenerAfter(lines: seq<seq<byte>>, i: nat) {
    forall n | i < n < |lines| :: !Opener(lines[n])
  }

  lemma {:induction false} FoundIsConflict(lines: seq<seq<byte>>) returns (i: nat, j: nat, k: nat)
    ensures Witness(lines, i, j, k)
    ensures Scan(lines).1 ==> exists a, b, c :: Conflict(lines, a, b, c)
  {
    if lines == [] {
      i, j, k := 0, 0, 0;
    } else {
      var shorter, line, last := lines[..|lines| - 1], lines[|lines| - 1], |lines| - 1;
      AdvanceLineMeans(Scan(shorter).0, line);
      i, j, k := FoundIsConflict(shorter);
      if Scan(shorter).1 {
        var a, b, c :| Conflict(shorter, a, b, c);
        assert Conflict(lines, a, b, c);
      } else if Scan(lines).1 {
        assert Conflict(lines, i, j, last);
      }
      if Opener(line) {
        i := last;
      } else if Scan(shorter).0 == Ours && Separator(line) {
        j := last;
      }
    }
  }

  /** The automaton finds a conflict exactly if there is one. */
  lemma ScanFindsConflicts(lines: seq<seq<byte>>)
    ensures Scan(lines).1 <==> exists i, j, k :: Conflict(lines, i, j, k)
  {
    var _, _, _ := FoundIsConflict(lines);
    forall i, j, k | Conflict(lines, i, j, k) ensures Scan(lines).1 {
      ConflictIsFound(lines, i, j, k);
    }
  }

  // ----- the stream, byte by byte

  /** What one `read` gives; an empty chunk is the end of the stream. */
  datatype Read = Chunk(bytes: seq<byte>) | Failure

  /** What the reads give together, when none fails before the end. */
  function Stream(input: seq<Read>): Option<seq<byte>> {
    if input == [] || input[0] == Chunk([]) then Some([])
    else if input[0].Failure? then None
    else
      match Stream(input[1..])
      case Some(rest) => Some(input[0].bytes + rest)
      case None => None
  }

  lemma SplitAtFirst(bytes: seq<byte>, p: nat)
    requires p < |bytes| && bytes[p] == LF && forall i | 0 <= i < p :: bytes[i] != LF
    ensures Split(bytes) == [bytes[..p]] + Split(bytes[p + 1..])
  {
    hide FirstLineEnd;
    assert FirstLineEnd(bytes) == p;
  }

  /** The lines after one more byte. */
  function Extended(lines: seq<seq<byte>>, b: byte): seq<seq<byte>>
    requires lines != []
  {
    if b == LF then lines + [[]] else lines[..|lines| - 1] + [lines[|lines| - 1] + [b]]
  }

  lemma {:induction false} SplitExtends(bytes: seq<byte>, b: byte)
    ensures Split(bytes + [b]) == Extended(Split(bytes), b)
  {
    hide Extended;
    var longer := bytes + [b];
    if LF in bytes {
      var p := FirstLineEnd(bytes);
      SplitAtFirst(longer, p);
      assert longer[p + 1..] == bytes[p + 1..] + [b] && longer[..p] == bytes[..p];
      SplitExtends(bytes[p + 1..], b);
      ExtendedTail(bytes[..p], Split(bytes[p + 1..]), b);
    } else if b == LF {
      SplitAtFirst(longer, |bytes|);
      assert longer[..|bytes|] == bytes && longer[|bytes| + 1..] == [];
      assert Split([]) == [[]];
      ExtendedSingle(bytes, b);
    } else {
      ExtendedSingle(bytes, b);
    }
  }

  lemma ExtendedSingle(line: seq<byte>, b: byte)
    ensures Extended([line], b) == if b == LF then [line] + [[]] else [line + [b]]
  {
  }

  lemma ExtendedTail(line: seq<byte>, lines: seq<seq<byte>>, b: byte)
    requires lines != []
    ensures Extended([line] + lines, b) == [line] + Extended(lines, b)
  {
  }

  lemma LinesExtend(bytes: seq<byte>, b: byte)
    ensures var lines := Lines(bytes);
      Lines(bytes + [b]) ==
        if b == CR then lines else Extended(lines, b)
  {
    assert (bytes + [b])[..|bytes|] == bytes;
    if b == CR {
      assert WithoutReturns(bytes + [b]) == WithoutReturns(bytes);
    } else {
      SplitExtends(WithoutReturns(bytes), b);
    }
  }

  /** What the scanner knows after `seen`: the stage after its finished lines, and the shape of the
      line it is in. */
  predicate Knows(seen: seq<byte>, stage: Stage, found: bool, first: Option<byte>, leading: nat,
                  onlySame: bool, binary: bool)
  {
    var lines := Lines(seen);
    var line := lines[|lines| - 1];
    && (stage, found) == Scan(lines[..|lines| - 1])
    && first == First(line)
    && leading == LeadingRun(line)
    && onlySame == (leading == |line|)
    && binary == (NUL in seen)
  }

  lemma KnowsNothingAtFirst()
    ensures Knows([], Outside, false, None, 0, true, false)
  {
    assert WithoutReturns([]) == [];
  }

  lemma ByteAdvances(seen: seq<byte>, b: byte, stage: Stage, found: bool, first: Option<byte>,
                     leading: nat, onlySame: bool, binary: bool)
    requires Knows(seen, stage, found, first, leading, onlySame, binary)
    ensures var next := seen + [b];
      var isBinary := binary || b == NUL;
      if b == LF then
        var (after, matched) := Advance(stage, first, leading, onlySame);
        Knows(next, after, found || matched, None, 0, true, isBinary)
      else if b == CR then Knows(next, stage, found, first, leading, onlySame, isBinary)
      else if first.None? then Knows(next, stage, found, Some(b), 1, onlySame, isBinary)
      else if b == first.value && onlySame then
        Knows(next, stage, found, first, leading + 1, onlySame, isBinary)
      else Knows(next, stage, found, first, leading, false, isBinary)
  {
    var lines := Lines(seen);
    var line := lines[|lines| - 1];
    LinesExtend(seen, b);
    assert NUL in seen + [b] <==> NUL in seen || b == NUL;
    if b == LF {
      assert (lines + [[]])[..|lines|] == lines;
    } else if b != CR {
      LineGrows(line, b);
      assert Extended(lines, b) == lines[..|lines| - 1] + [line + [b]];
    }
  }

  lemma LineGrows(line: seq<byte>, b: byte)
    ensures First(line + [b]) == if line == [] then Some(b) else First(line)
    ensures LeadingRun(line + [b]) ==
      if line == [] then 1
      else if LeadingRun(line) == |line| && b == line[0] then |line| + 1
      else LeadingRun(line)
    ensures LeadingRun(line) <= |line|
  {
    assert (line + [b])[..|line|] == line;
    LeadingRunCounts(line);
  }

  lemma AtEnd(seen: seq<byte>, stage: Stage, found: bool, first: Option<byte>, leading: nat,
              onlySame: bool, binary: bool)
    requires Knows(seen, stage, found, first, leading, onlySame, binary)
    ensures var matched := first.Some? && Advance(stage, first, leading, onlySame).1;
      (found || matched) && !binary <==> HasConflictMarkers(seen)
  {
    var lines := Lines(seen);
    ScanFindsConflicts(lines);
    AdvanceLineMeans(stage, lines[|lines| - 1]);
  }

  /** The reads from `next` on, when the first of them is not the end. */
  lemma StreamStep(input: seq<Read>, next: nat)
    requires next < |input| && input[next] != Chunk([])
    ensures input[next].Failure? ==> Stream(input[next..]).None?
    ensures input[next].Chunk? ==>
      && Stream(input[next..]).None? == Stream(input[next + 1..]).None?
      && (Stream(input[next..]).Some? ==>
          Stream(input[next..]).value == input[next].bytes + Stream(input[next + 1..]).value)
  {
    assert input[next..][1..] == input[next + 1..];
  }

  lemma StreamEnds(input: seq<Read>, next: nat)
    requires next <= |input| && (next < |input| ==> input[next] == Chunk([]))
    ensures Stream(input[next..]) == Some([])
  {
  }

  /** What is read and what is still to be read make up the stream. */
  predicate Rest(input: seq<Read>, next: nat, seen: seq<byte>)
    requires next <= |input|
  {
    var all, rest := Stream(input), Stream(input[next..]);
    all.None? == rest.None? && (all.Some? ==> all.value == seen + rest.value)
  }

  lemma RestStep(input: seq<Read>, next: nat, seen: seq<byte>)
    requires next < |input| && Rest(input, next, seen) && input[next] != Chunk([])
    ensures input[next].Failure? ==> Stream(input).None?
    ensures input[next].Chunk? ==> Rest(input, next + 1, seen + input[next].bytes)
  {
    hide Stream;
    StreamStep(input, next);
  }

  lemma RestAtStart(input: seq<Read>)
    ensures Rest(input, 0, [])
  {
    hide Stream;
    assert input[0..] == input;
  }

  lemma RestAtEnd(input: seq<Read>, next: nat, seen: seq<byte>)
    requires next <= |input| && Rest(input, next, seen) && (next < |input| ==> input[next] == Chunk([]))
    ensures Stream(input) == Some(seen)
  {
    hide Stream;
    StreamEnds(input, next);
    assert seen + [] == seen;
  }

  /** `stream_contains_conflict_markers`: for every chunking of the input, the one-pass scanner
      answers what the lines say, and fails exactly if a read fails before the end. */
  method StreamContainsConflictMarkers(input: seq<Read>) returns (r: Option<bool>)
    ensures r.None? <==> Stream(input).None?
    ensures r.Some? ==> (r.value <==> HasConflictMarkers(Stream(input).value))
  {
    hide Knows, HasConflictMarkers, Advance, Stream, Rest;
    KnowsNothingAtFirst();
    RestAtStart(input);
    var stage, first, leading, onlySame := Outside, None, 0, true;
    var binary, found := false, false;
    ghost var seen: seq<byte> := [];
    var next := 0;
    while next < |input| && input[next] != Chunk([])
      invariant next <= |input|
      invariant Rest(input, next, seen)
      invariant Knows(seen, stage, found, first, leading, onlySame, binary)
    {
      RestStep(input, next, seen);
      if input[next].Failure? {
        return None;
      }
      var buffer := input[next].bytes;
      ghost var before := seen;
      for i := 0 to |buffer|
        invariant seen == before + buffer[..i]
        invariant Knows(seen, stage, found, first, leading, onlySame, binary)
      {
        var b := buffer[i];
        ByteAdvances(seen, b, stage, found, first, leading, onlySame, binary);
        seen := seen + [b];
        assert before + buffer[..i + 1] == before + buffer[..i] + [b];
        if b == NUL {
          binary := true;
        }
        if b == LF {
          var (after, matched) := Advance(stage, first, leading, onlySame);
          stage := after;
          found := found || matched;
          first, leading, onlySame := None, 0, true;
        } else if b != CR {
          if first.None? {
            first, leading := Some(b), 1;
          } else if b == first.value && onlySame {
            leading := leading + 1;
          } else {
            onlySame := false;
          }
        }
      }
      assert buffer[..|buffer|] == buffer;
      next := next + 1;
    }
    RestAtEnd(input, next, seen);
    AtEnd(seen, stage, found, first, leading, onlySame, binary);
    if first.Some? {
      var (_, matched) := Advance(stage, first, leading, onlySame);
      found := found || matched;
    }
    r := Some(found && !binary);
  }
}
