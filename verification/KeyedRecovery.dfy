/**
 Recovery of the keyed store from its snapshot and its write-ahead log, down to the bytes of a
 log whose last frame may be torn.
 */
module KeyedRecovery {
  import opened Bytes
  import opened KeyedRecords

  datatype Fault = Corruption | Capacity

  // --------------------------------------------------------------------- frames

  function Crc32(c: Codec, payload: Bytes): nat
  {
    c.crc(payload) % U32_LIMIT
  }

  function Frame(c: Codec, r: Record): Bytes
  {
    var payload := c.encode(r);
    LittleEndian(4, |payload|) + payload + LittleEndian(4, Crc32(c, payload))
  }

  // The record survives encoding and its frame is small enough to be written.
  predicate Encodable(c: Codec, r: Record)
  {
    c.decode(c.encode(r)) == Some(r) && 0 < |c.encode(r)| <= MAX_FRAME_BYTES
  }

  function Frames(c: Codec, rs: seq<Record>): Bytes
  {
    if rs == [] then [] else Frame(c, rs[0]) + Frames(c, rs[1..])
  }

  lemma {:induction false} FramesAppend(c: Codec, rs: seq<Record>, more: seq<Record>)
    ensures Frames(c, rs + more) == Frames(c, rs) + Frames(c, more)
    decreases |rs|
  {
    if rs == [] {
      assert rs + more == more;
    } else {
      assert (rs + more)[1..] == rs[1..] + more;
      FramesAppend(c, rs[1..], more);
    }
  }

  lemma FramesSnoc(c: Codec, rs: seq<Record>, r: Record)
    ensures Frames(c, rs + [r]) == Frames(c, rs) + Frame(c, r)
  {
    FramesAppend(c, rs, [r]);
    assert Frames(c, [r]) == Frame(c, r) + Frames(c, []);
  }

  // What an interrupted write of one more frame can leave behind.
  ghost predicate Torn(c: Codec, tail: Bytes)
  {
    tail == [] || exists r :: Encodable(c, r) && tail < Frame(c, r)
  }

  lemma FrameParts(c: Codec, r: Record, rest: Bytes)
    requires |c.encode(r)| <= MAX_FRAME_BYTES
    ensures var p, bytes := c.encode(r), Frame(c, r) + rest;
            && |Frame(c, r)| == |p| + 8
            && FromLittleEndian(bytes[..4]) == |p|
            && bytes[4..4 + |p|] == p
            && FromLittleEndian(bytes[4 + |p|..8 + |p|]) == Crc32(c, p)
            && bytes[8 + |p|..] == rest
  {
    var p, bytes := c.encode(r), Frame(c, r) + rest;
    Widths();
    LittleEndianRoundTrip(4, |p|);
    LittleEndianRoundTrip(4, Crc32(c, p));
    assert bytes[..4] == LittleEndian(4, |p|);
    assert bytes[4 + |p|..8 + |p|] == LittleEndian(4, Crc32(c, p));
  }

  // --------------------------------------------------------------------- replay

  function KeysOf(ms: seq<Mutation>): set<Bytes>
  {
    set m | m in ms :: m.key
  }

  // `seen` holds the keys of the mutations before `m`.
  function MutationFault(o: Options, c: Codec, m: Mutation, seen: set<Bytes>): Option<Fault>
  {
    if m.key == [] || |m.key| > o.MaxStoredKeyBytes() || m.key in seen || (m.delete && m.value != [])
        then Some(Corruption)
    else if |m.value| > o.maxValueBytes then Some(Capacity)
    else if !m.delete && !c.validJson(m.value) then Some(Corruption)
    else None
  }

  function FirstFault(o: Options, c: Codec, ms: seq<Mutation>): Option<Fault>
  {
    if ms == [] then None
    else
      var front := FirstFault(o, c, ms[..|ms| - 1]);
      if front.Some? then front else MutationFault(o, c, ms[|ms| - 1], KeysOf(ms[..|ms| - 1]))
  }

  function Validate(o: Options, c: Codec, r: Record): Option<Fault>
  {
    if r.commandID == [] || |r.commandID| > MAX_IDENTITY_BYTES || |r.code| > MAX_CODE_BYTES then Some(Corruption)
    else if |r.result| > o.maxValueBytes then Some(Capacity)
    else if r.result != [] && !c.validJson(r.result) then Some(Corruption)
    else if !r.applied && r.mutations != [] then Some(Corruption)
    else if FirstFault(o, c, r.mutations).Some? then FirstFault(o, c, r.mutations)
    else if Total(r.mutations) > o.maxTransactionBytes then Some(Capacity)
    else None
  }

  lemma DistinctSnoc(ms: seq<Mutation>, n: nat)
    requires |ms| == n + 1
    ensures DistinctKeys(ms) <==> DistinctKeys(ms[..n]) && ms[n].key !in KeysOf(ms[..n])
  {
    var front := ms[..n];
    assert forall i | 0 <= i < n :: front[i] == ms[i] && front[i] in front;
  }

  lemma ValidSnoc(o: Options, c: Codec, ms: seq<Mutation>, n: nat)
    requires |ms| == n + 1
    ensures (forall m <- ms :: MutationValid(o, c, m)) <==>
              (forall m <- ms[..n] :: MutationValid(o, c, m)) && MutationValid(o, c, ms[n])
  {
    assert ms == ms[..n] + [ms[n]];
  }

  lemma {:induction false} NoFaultIff(o: Options, c: Codec, ms: seq<Mutation>)
    ensures FirstFault(o, c, ms) == None <==> DistinctKeys(ms) && forall m <- ms :: MutationValid(o, c, m)
  {
    if ms != [] {
      var n := |ms| - 1;
      NoFaultIff(o, c, ms[..n]);
      DistinctSnoc(ms, n);
      ValidSnoc(o, c, ms, n);
    }
  }

  // Validation passes exactly the well-formed records that fit, and a well-formed record that
  // does not fit is refused as over capacity.
  lemma ValidateIff(o: Options, c: Codec, r: Record)
    ensures Validate(o, c, r) == None <==> WellFormed(o, c, r) && Fits(o, r)
    ensures WellFormed(o, c, r) && !Fits(o, r) ==> Validate(o, c, r) == Some(Capacity)
  {
    NoFaultIff(o, c, r.mutations);
  }

  datatype Outcome = Replayed(state: State, keep: nat) | Refused(fault: Fault)

  // The same outcome for a log with `offset` more bytes in front.
  function Later(r: Outcome, offset: nat): Outcome
  {
    if r.Refused? then r else Replayed(r.state, r.keep + offset)
  }

  // One decoded record during replay: the next state, or why the log is refused.
  datatype Admitted = Admitted(state: State) | Rejected(fault: Fault)

  function Admit(o: Options, c: Codec, last: nat, s: State, r: Record): Admitted
  {
    if r.sequence == 0 || (last != 0 && r.sequence != last + 1) then Rejected(Corruption)
    else
      var fault := Validate(o, c, r);
      if fault.Some? then Rejected(fault.value)
      else if r.sequence <= s.sequence then Admitted(s)
      else if r.sequence != s.sequence + 1 || r.commandID in s.dedupe then Rejected(Corruption)
      else if !RecordsFit(o, s, r) then Rejected(Capacity)
      else Admitted(Apply(o, s, r))
  }

  datatype FrameRead = EndOfLog | BadFrame | Whole(record: Record, size: nat)

  // The frame at the start of `rest`. A frame that ends beyond the file ends the log.
  function NextFrame(c: Codec, rest: Bytes): (f: FrameRead)
    ensures f.Whole? ==> 0 < f.size <= |rest|
  {
    if |rest| < 4 then EndOfLog
    else
      var length := FromLittleEndian(rest[..4]);
      if length == 0 || length > MAX_FRAME_BYTES then BadFrame
      else if |rest| < length + 8 then EndOfLog
      else
        var decoded := c.decode(rest[4..4 + length]);
        if FromLittleEndian(rest[4 + length..8 + length]) != Crc32(c, rest[4..4 + length]) || decoded.None?
            then BadFrame
        else Whole(decoded.value, length + 8)
  }

  // Reads frames from `rest`; `keep` is the offset at which a torn tail is cut off.
  function Replay(o: Options, c: Codec, rest: Bytes, last: nat, s: State): Outcome
    decreases |rest|
  {
    match NextFrame(c, rest)
    case EndOfLog => Replayed(s, 0)
    case BadFrame => Refused(Corruption)
    case Whole(r, size) =>
      var admitted := Admit(o, c, last, s, r);
      if admitted.Rejected? then Refused(admitted.fault)
      else Later(Replay(o, c, rest[size..], r.sequence, admitted.state), size)
  }

  lemma ReplayFrame(o: Options, c: Codec, r: Record, rest: Bytes, last: nat, s: State)
    requires Encodable(c, r)
    ensures var admitted := Admit(o, c, last, s, r);
            Replay(o, c, Frame(c, r) + rest, last, s) ==
            if admitted.Rejected? then Refused(admitted.fault)
            else Later(Replay(o, c, rest, r.sequence, admitted.state), |Frame(c, r)|)
  {
    FrameParts(c, r, rest);
    assert NextFrame(c, Frame(c, r) + rest) == Whole(r, |Frame(c, r)|);
  }

  lemma TornEnds(c: Codec, tail: Bytes)
    requires Torn(c, tail)
    ensures NextFrame(c, tail) == EndOfLog
  {
    if |tail| >= 4 {
      var r :| Encodable(c, r) && tail < Frame(c, r);
      FrameParts(c, r, []);
      assert Frame(c, r) + [] == Frame(c, r);
      assert tail[..4] == Frame(c, r)[..4];
    }
  }

  lemma ReplayTorn(o: Options, c: Codec, tail: Bytes, last: nat, s: State)
    requires Torn(c, tail)
    ensures Replay(o, c, tail, last, s) == Replayed(s, 0)
  {
    TornEnds(c, tail);
  }

  ghost predicate AllEncodable(c: Codec, rs: seq<Record>)
  {
    forall r <- rs :: Encodable(c, r)
  }

  predicate AllFit(o: Options, rs: seq<Record>)
  {
    forall r <- rs :: Fits(o, r)
  }

  function Max(a: nat, b: nat): nat { if a < b then b else a }

  lemma AdmitNext(o: Options, c: Codec, h: seq<Record>, i: nat, b: nat, last: nat)
    requires o.Normalized() && Legal(o, c, h) && i < |h| && b <= |h| && (last == 0 || last == i)
    ensures Admit(o, c, last, Fold(o, h[..Max(i, b)]), h[i]) ==
            if Fits(o, h[i]) then Admitted(Fold(o, h[..Max(i + 1, b)])) else Rejected(Capacity)
  {
    LegalAt(o, c, h, i);
    ValidateIff(o, c, h[i]);
    LegalPrefix(o, c, h, Max(i, b));
    LegalState(o, c, h[..Max(i, b)]);
  }

  lemma FramesHead(o: Options, c: Codec, h: seq<Record>, i: nat, m: nat, tail: Bytes)
    requires i < m <= |h|
    ensures Frames(c, h[i..m]) == Frame(c, h[i]) + Frames(c, h[i + 1..m])
    ensures Frames(c, h[i..m]) + tail == Frame(c, h[i]) + (Frames(c, h[i + 1..m]) + tail)
    ensures AllEncodable(c, h[i..m]) <==> Encodable(c, h[i]) && AllEncodable(c, h[i + 1..m])
    ensures AllFit(o, h[i..m]) <==> Fits(o, h[i]) && AllFit(o, h[i + 1..m])
  {
    assert h[i..m] == [h[i]] + h[i + 1..m];
    assert h[i..m][1..] == h[i + 1..m];
  }

  lemma ReplayNext(o: Options, c: Codec, h: seq<Record>, i: nat, b: nat, last: nat, rest: Bytes)
    requires o.Normalized() && Legal(o, c, h) && i < |h| && b <= |h| && (last == 0 || last == i) && Encodable(c, h[i])
    ensures Replay(o, c, Frame(c, h[i]) + rest, last, Fold(o, h[..Max(i, b)])) ==
            if Fits(o, h[i]) then Later(Replay(o, c, rest, i + 1, Fold(o, h[..Max(i + 1, b)])), |Frame(c, h[i])|)
            else Refused(Capacity)
  {
    LegalAt(o, c, h, i);
    AdmitNext(o, c, h, i, b, last);
    ReplayFrame(o, c, h[i], rest, last, Fold(o, h[..Max(i, b)]));
  }

  // Replaying records i..m over the state after b records leaves the state after the later of m
  // and b, and goes on with what follows them.
  function Continued(o: Options, c: Codec, h: seq<Record>, i: nat, b: nat, m: nat, last: nat, rest: Bytes): Outcome
    requires i <= m <= |h| && b <= |h|
  {
    if !AllFit(o, h[i..m]) then Refused(Capacity)
    else Later(Replay(o, c, rest, if i < m then m else last, Fold(o, h[..Max(m, b)])), |Frames(c, h[i..m])|)
  }

  lemma ReplayNone(o: Options, c: Codec, h: seq<Record>, b: nat, m: nat, last: nat, rest: Bytes)
    requires m <= |h| && b <= |h|
    ensures Replay(o, c, Frames(c, h[m..m]) + rest, last, Fold(o, h[..Max(m, b)]))
            == Continued(o, c, h, m, b, m, last, rest)
  {
    assert h[m..m] == [];
    assert Frames(c, h[m..m]) + rest == rest;
  }

  lemma ReplayOne(o: Options, c: Codec, h: seq<Record>, i: nat, b: nat, m: nat, last: nat, rest: Bytes)
    requires o.Normalized() && Legal(o, c, h) && i < m <= |h| && b <= |h| && (last == 0 || last == i)
             && Encodable(c, h[i])
    requires Fits(o, h[i]) ==>
               Replay(o, c, Frames(c, h[i + 1..m]) + rest, i + 1, Fold(o, h[..Max(i + 1, b)]))
               == Continued(o, c, h, i + 1, b, m, i + 1, rest)
    ensures Replay(o, c, Frames(c, h[i..m]) + rest, last, Fold(o, h[..Max(i, b)]))
            == Continued(o, c, h, i, b, m, last, rest)
  {
    FramesHead(o, c, h, i, m, rest);
    ReplayNext(o, c, h, i, b, last, Frames(c, h[i + 1..m]) + rest);
  }

  // Replaying the frames of records i..m of a legal history, from the state after its first b
  // records, whichever of the two ends first: it goes on with what follows, in the state after
  // them all - or is refused as over capacity, exactly when some frame holds a record that replay
  // counts as too large.
  lemma {:induction false} ReplayFrames(o: Options, c: Codec, h: seq<Record>, i: nat, b: nat, m: nat, last: nat,
      rest: Bytes)
    requires o.Normalized() && Legal(o, c, h) && i <= m <= |h| && b <= |h| && (last == 0 || last == i)
    requires AllEncodable(c, h[i..m])
    ensures Replay(o, c, Frames(c, h[i..m]) + rest, last, Fold(o, h[..Max(i, b)]))
            == Continued(o, c, h, i, b, m, last, rest)
    decreases m - i
  {
    if i == m {
      ReplayNone(o, c, h, b, m, last, rest);
    } else {
      FramesHead(o, c, h, i, m, rest);
      if Fits(o, h[i]) { ReplayFrames(o, c, h, i + 1, b, m, i + 1, rest); }
      ReplayOne(o, c, h, i, b, m, last, rest);
    }
  }

  // A record that does not follow the one before it in the log is refused, whatever the state.
  lemma ReplayGap(o: Options, c: Codec, r: Record, rest: Bytes, last: nat, s: State)
    requires Encodable(c, r) && last != 0 && r.sequence != last + 1
    ensures Replay(o, c, Frame(c, r) + rest, last, s) == Refused(Corruption)
  {
    ReplayFrame(o, c, r, rest, last, s);
  }

  // The sequence of the last whole frame; 0 if there is none.
  function LastSequence(c: Codec, rest: Bytes): nat
    decreases |rest|
  {
    match NextFrame(c, rest)
    case Whole(r, size) => var later := LastSequence(c, rest[size..]); if later == 0 then r.sequence else later
    case _ => 0
  }

  lemma LastTorn(c: Codec, tail: Bytes)
    requires Torn(c, tail)
    ensures LastSequence(c, tail) == 0
  {
    TornEnds(c, tail);
  }

  lemma LastFrame(c: Codec, r: Record, rest: Bytes)
    requires Encodable(c, r)
    ensures LastSequence(c, Frame(c, r) + rest) == if LastSequence(c, rest) == 0 then r.sequence
            else LastSequence(c, rest)
  {
    FrameParts(c, r, rest);
    assert NextFrame(c, Frame(c, r) + rest) == Whole(r, |Frame(c, r)|);
  }

  lemma {:induction false} LastOfFrames(o: Options, c: Codec, h: seq<Record>, i: nat, m: nat, rest: Bytes)
    requires o.Normalized() && Legal(o, c, h) && i <= m <= |h| && AllEncodable(c, h[i..m])
    ensures LastSequence(c, Frames(c, h[i..m]) + rest) ==
            if LastSequence(c, rest) != 0 then LastSequence(c, rest) else if i < m then m else 0
    decreases m - i
  {
    if i == m {
      assert h[i..m] == [];
      assert Frames(c, h[i..m]) + rest == rest;
    } else {
      FramesHead(o, c, h, i, m, rest);
      LastOfFrames(o, c, h, i + 1, m, rest);
      LegalAt(o, c, h, i);
      LastFrame(c, h[i], Frames(c, h[i + 1..m]) + rest);
    }
  }

  lemma CutInsideFrame(c: Codec, r: Record, rest: Bytes, cut: nat) returns (tail: Bytes)
    requires Encodable(c, r) && cut < |Frame(c, r)|
    ensures Torn(c, tail) && (Frame(c, r) + rest)[..cut] == tail
  {
    tail := Frame(c, r)[..cut];
    assert tail < Frame(c, r);
  }

  lemma CutTail(c: Codec, tail: Bytes, cut: nat)
    requires Torn(c, tail) && cut <= |tail|
    ensures Torn(c, tail[..cut])
  {
    if tail != [] {
      var r :| Encodable(c, r) && tail < Frame(c, r);
      assert tail[..cut] < Frame(c, r);
    }
  }

  lemma FramesPrefixHead(c: Codec, rs: seq<Record>, j: nat)
    requires 0 < j <= |rs|
    ensures Frames(c, rs[..j]) == Frame(c, rs[0]) + Frames(c, rs[1..][..j - 1])
  {
    assert rs[..j][1..] == rs[1..][..j - 1];
  }

  // Any cut of a log of whole frames leaves whole frames and a torn tail, and loses no frame
  // that lies before the cut.
  lemma {:induction false} CutFrames(c: Codec, rs: seq<Record>, tail: Bytes, cut: nat, a: nat)
      returns (j: nat, tail': Bytes)
    requires AllEncodable(c, rs) && Torn(c, tail) && a <= |rs|
    requires |Frames(c, rs[..a])| <= cut <= |Frames(c, rs)| + |tail|
    ensures a <= j <= |rs| && Torn(c, tail')
    ensures (Frames(c, rs) + tail)[..cut] == Frames(c, rs[..j]) + tail'
    decreases |rs|
  {
    if rs == [] {
      CutTail(c, tail, cut);
      j, tail' := 0, tail[..cut];
    } else {
      var first, rest := Frame(c, rs[0]), Frames(c, rs[1..]) + tail;
      assert Encodable(c, rs[0]) by { assert rs[0] in rs; }
      ConcatAssoc(first, Frames(c, rs[1..]), tail);
      if a > 0 { FramesPrefixHead(c, rs, a); }
      if cut < |first| {
        j := 0;
        tail' := CutInsideFrame(c, rs[0], rest, cut);
      } else {
        j, tail' := CutFrames(c, rs[1..], tail, cut - |first|, if a > 0 then a - 1 else 0);
        FramesPrefixHead(c, rs, j + 1);
        TakeConcat(first, rest, cut);
        ConcatAssoc(first, Frames(c, rs[1..][..j]), tail');
        j := j + 1;
      }
    }
  }
}
