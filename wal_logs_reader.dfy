/**
 * Recovery of the write-ahead log: every segment the directory yields is
 * decoded record by record until its bytes run out, the records of all
 * segments are gathered in enumeration order, and the whole collection is
 * sorted by log sequence number.
 */
module WalReader {
  import opened Wrappers

  newtype byte = x: int | 0 <= x < 256

  /** A persisted log record; `lsn` fixes the global write order. */
  datatype Log = Log(lsn: int, txId: int, commandId: int, arguments: seq<string>)

  /** One successful decode: the record read and the number of bytes it took from the buffer. */
  datatype Decoded = Decoded(log: Log, consumed: nat)

  /** `Log.Decode` applied to the unread part of a segment's buffer. */
  type Decoder = seq<byte> -> Result<Decoded, string>

  /**
   * The one thing assumed of the record decoder: a successful decode of a
   * non-empty buffer consumes at least one byte and no more than the buffer holds.
   */
  ghost predicate Progresses(decode: Decoder) {
    forall b :: |b| > 0 && decode(b).Success? ==> 0 < decode(b).value.consumed <= |b|
  }

  /** The capability of the segments directory: the raw bytes of every stored segment. */
  datatype SegmentsDirectory = SegmentsDirectory(segments: seq<seq<byte>>)

  const ReadSegmentsPrefix: string := "failed to read segments: "
  const ParseLogsPrefix: string := "failed to parse logs data: "

  /** Records gathered so far followed by those of a later step; the first error wins. */
  function Concat(first: Result<seq<Log>, string>, second: Result<seq<Log>, string>): (r: Result<seq<Log>, string>)
    ensures r.Success? <==> first.Success? && second.Success?
    ensures r.Success? ==> r.value == first.value + second.value
    ensures first.Failure? ==> r == first
    ensures first.Success? && second.Failure? ==> r == second
  {
    match first
    case Failure(e) => Failure(e)
    case Success(a) =>
      match second
      case Failure(e) => Failure(e)
      case Success(b) => Success(a + b)
  }

  /**
   * The records of one segment in decode order, or the first decode error.
   * Every record takes at least one byte, so there are never more records than bytes.
   */
  ghost function DecodeSegment(decode: Decoder, data: seq<byte>): (r: Result<seq<Log>, string>)
    requires Progresses(decode)
    ensures |data| == 0 ==> r == Success([])
    ensures r.Success? ==> |r.value| <= |data|
    decreases |data|
  {
    if |data| == 0 then Success([])
    else
      match decode(data)
      case Failure(e) => Failure(e)
      case Success(d) => Concat(Success([d.log]), DecodeSegment(decode, data[d.consumed..]))
  }

  /**
   * The records of all segments, concatenated in enumeration order, or the
   * first error: it succeeds exactly when every segment decodes, and a
   * failure is the error of a segment all of whose predecessors decode.
   */
  ghost function DecodeAll(decode: Decoder, segments: seq<seq<byte>>): (r: Result<seq<Log>, string>)
    requires Progresses(decode)
    ensures r.Success? <==> forall i :: 0 <= i < |segments| ==> DecodeSegment(decode, segments[i]).Success?
    ensures r.Failure? ==> exists i :: (0 <= i < |segments| && DecodeSegment(decode, segments[i]) == Failure(r.error)
      && forall j :: 0 <= j < i ==> DecodeSegment(decode, segments[j]).Success?)
    decreases |segments|
  {
    if segments == [] then Success([])
    else
      var n := |segments| - 1;
      var prefix := segments[..n];
      assert forall i :: 0 <= i < n ==> prefix[i] == segments[i];
      Concat(DecodeAll(decode, prefix), DecodeSegment(decode, segments[n]))
  }

  ghost predicate SortedByLsn(s: seq<Log>) {
    forall i, j :: 0 <= i < j < |s| ==> s[i].lsn <= s[j].lsn
  }

  ghost predicate DistinctLsns(s: seq<Log>) {
    forall i, j :: 0 <= i < j < |s| ==> s[i].lsn != s[j].lsn
  }

  /** NewLogsReader: a reader needs a directory. */
  function NewLogsReader(segmentsDirectory: Option<SegmentsDirectory>): (r: Result<LogsReader, string>)
    ensures r.Failure? <==> segmentsDirectory.None?
    ensures r.Failure? ==> r.error == "segments directory is invalid"
    ensures r.Success? ==> r.value.segmentsDirectory == segmentsDirectory.value
  {
    match segmentsDirectory
    case None => Failure("segments directory is invalid")
    case Some(d) => Success(LogsReader(d))
  }

  datatype LogsReader = LogsReader(segmentsDirectory: SegmentsDirectory) {

    /**
     * Read: all records of all segments, sorted by LSN ascending; any decode
     * failure fails the whole read and no partial list is returned. The sort
     * is not stable, so only a permutation of the gathered records is promised.
     */
    method Read(decode: Decoder) returns (r: Result<seq<Log>, string>)
      requires Progresses(decode)
      ensures r.Success? <==> DecodeAll(decode, segmentsDirectory.segments).Success?
      ensures r.Failure? ==>
        r.error == ReadSegmentsPrefix + ParseLogsPrefix + DecodeAll(decode, segmentsDirectory.segments).error
      ensures r.Success? ==> SortedByLsn(r.value)
      ensures r.Success? ==> multiset(r.value) == multiset(DecodeAll(decode, segmentsDirectory.segments).value)
    {
      var gathered := ReadSegments(decode);
      if gathered.Failure? {
        return Failure(gathered.error);
      }
      var logs := gathered.value;
      var sorted := new Log[|logs|](k requires 0 <= k < |logs| => logs[k]);
      assert sorted[..] == logs;
      SortByLsn(sorted);
      r := Success(sorted[..]);
    }

    /**
     * The ForEach in Read: every segment's records, in enumeration order,
     * stopping at the first segment that fails to decode.
     */
    method ReadSegments(decode: Decoder) returns (r: Result<seq<Log>, string>)
      requires Progresses(decode)
      ensures DecodeAll(decode, segmentsDirectory.segments).Success? ==>
        r == DecodeAll(decode, segmentsDirectory.segments)
      ensures DecodeAll(decode, segmentsDirectory.segments).Failure? ==>
        r == Failure(ReadSegmentsPrefix + ParseLogsPrefix + DecodeAll(decode, segmentsDirectory.segments).error)
    {
      var segments := segmentsDirectory.segments;
      var logs: seq<Log> := [];
      var i := 0;
      while i < |segments|
        invariant 0 <= i <= |segments|
        invariant DecodeAll(decode, segments[..i]) == Success(logs)
      {
        DecodeAllSnoc(decode, segments, i);
        var next := ReadSegment(logs, segments[i], decode);
        if next.Failure? {
          ghost var e := DecodeSegment(decode, segments[i]).error;
          assert DecodeAll(decode, segments[..i + 1]) == Failure(e);
          FailurePersists(decode, segments, i + 1);
          assert ReadSegmentsPrefix + next.error == ReadSegmentsPrefix + ParseLogsPrefix + e;
          return Failure(ReadSegmentsPrefix + next.error);
        }
        logs := next.value;
        i := i + 1;
      }
      assert segments[..i] == segments;
      r := Success(logs);
    }

    /**
     * readSegment: appends the segment's records, in decode order, after the
     * incoming `logs`, until the buffer is empty; a decode error discards them all.
     */
    method ReadSegment(logs: seq<Log>, data: seq<byte>, decode: Decoder) returns (r: Result<seq<Log>, string>)
      requires Progresses(decode)
      ensures DecodeSegment(decode, data).Success? ==> r == Success(logs + DecodeSegment(decode, data).value)
      ensures DecodeSegment(decode, data).Failure? ==> r == Failure(ParseLogsPrefix + DecodeSegment(decode, data).error)
    {
      var pos := 0;
      var acc := logs;
      ghost var decoded: seq<Log> := [];
      DecodeStart(decode, data);
      while pos < |data|
        invariant 0 <= pos <= |data|
        invariant acc == logs + decoded
        invariant DecodeSegment(decode, data) == Concat(Success(decoded), DecodeSegment(decode, data[pos..]))
        decreases |data| - pos
      {
        var d := decode(data[pos..]);
        DecodeStep(decode, data, pos, decoded);
        if d.Failure? {
          return Failure(ParseLogsPrefix + d.error);
        }
        acc := acc + [d.value.log];
        decoded := decoded + [d.value.log];
        pos := pos + d.value.consumed;
      }
      DecodeEnd(decode, data, decoded);
      r := Success(acc);
    }
  }

  /** In-place sort by LSN ascending (sort.Slice): the result is ordered and a permutation. */
  method SortByLsn(a: array<Log>)
    modifies a
    ensures SortedByLsn(a[..])
    ensures multiset(a[..]) == old(multiset(a[..]))
  {
    var i := 0;
    while i < a.Length
      invariant 0 <= i <= a.Length
      invariant forall p, q :: 0 <= p < q < i ==> a[p].lsn <= a[q].lsn
      invariant multiset(a[..]) == old(multiset(a[..]))
    {
      var j := i;
      while 0 < j && a[j].lsn < a[j - 1].lsn
        invariant 0 <= j <= i
        invariant forall p, q :: 0 <= p < q <= i && q != j ==> a[p].lsn <= a[q].lsn
        invariant multiset(a[..]) == old(multiset(a[..]))
      {
        SwapAdjacent(a, j - 1);
        j := j - 1;
      }
      i := i + 1;
    }
  }

  /** Exchanges two neighbouring records; everything else stays in place. */
  method SwapAdjacent(a: array<Log>, k: nat)
    requires k + 1 < a.Length
    modifies a
    ensures a[k] == old(a[k + 1]) && a[k + 1] == old(a[k])
    ensures forall m :: 0 <= m < a.Length && m != k && m != k + 1 ==> a[m] == old(a[m])
    ensures multiset(a[..]) == old(multiset(a[..]))
  {
    a[k], a[k + 1] := a[k + 1], a[k];
  }

  lemma ConcatAssociative(a: Result<seq<Log>, string>, b: Result<seq<Log>, string>, c: Result<seq<Log>, string>)
    ensures Concat(Concat(a, b), c) == Concat(a, Concat(b, c))
  {
    if a.Success? && b.Success? && c.Success? {
      assert (a.value + b.value) + c.value == a.value + (b.value + c.value);
    }
  }

  /** Once a prefix of the segments fails to decode, the whole read fails with that error. */
  lemma {:induction false} FailurePersists(decode: Decoder, segments: seq<seq<byte>>, k: nat)
    requires Progresses(decode)
    requires k <= |segments|
    requires DecodeAll(decode, segments[..k]).Failure?
    ensures DecodeAll(decode, segments) == DecodeAll(decode, segments[..k])
    decreases |segments| - k
  {
    if k == |segments| {
      assert segments[..k] == segments;
    } else {
      DecodeAllSnoc(decode, segments, k);
      FailurePersists(decode, segments, k + 1);
    }
  }
  /** The segments up to and including the i-th: those before it, then its records. */
  lemma DecodeAllSnoc(decode: Decoder, segments: seq<seq<byte>>, i: nat)
    requires Progresses(decode) && i < |segments|
    ensures DecodeAll(decode, segments[..i + 1]) == Concat(DecodeAll(decode, segments[..i]), DecodeSegment(decode, segments[i]))
  {
    assert segments[..i + 1][..i] == segments[..i];
  }

  /** Before the first decode, nothing has been decoded and the whole buffer is left. */
  lemma DecodeStart(decode: Decoder, data: seq<byte>)
    requires Progresses(decode)
    ensures DecodeSegment(decode, data) == Concat(Success([]), DecodeSegment(decode, data[0..]))
  {
    assert data[0..] == data;
    assert DecodeSegment(decode, data).Success? ==> [] + DecodeSegment(decode, data).value == DecodeSegment(decode, data).value;
  }

  /** The first decode of a non-empty buffer: its error, or its record followed by the rest. */
  lemma DecodeSegmentUnfold(decode: Decoder, b: seq<byte>)
    requires Progresses(decode) && |b| > 0
    ensures decode(b).Failure? ==> DecodeSegment(decode, b) == Failure(decode(b).error)
    ensures decode(b).Success? ==>
      && 0 < decode(b).value.consumed <= |b|
      && DecodeSegment(decode, b) == Concat(Success([decode(b).value.log]), DecodeSegment(decode, b[decode(b).value.consumed..]))
  {
  }

  /**
   * One decode at position pos: an error ends the segment with it; a record
   * moves pos forward by at least one byte and joins the decoded ones.
   */
  lemma DecodeStep(decode: Decoder, data: seq<byte>, pos: nat, decoded: seq<Log>)
    requires Progresses(decode) && pos < |data|
    ensures decode(data[pos..]).Failure? ==>
      Concat(Success(decoded), DecodeSegment(decode, data[pos..])) == Failure(decode(data[pos..]).error)
    ensures decode(data[pos..]).Success? ==>
      var d := decode(data[pos..]).value;
      && 0 < d.consumed && pos + d.consumed <= |data|
      && Concat(Success(decoded), DecodeSegment(decode, data[pos..]))
         == Concat(Success(decoded + [d.log]), DecodeSegment(decode, data[pos + d.consumed..]))
  {
    var b := data[pos..];
    DecodeSegmentUnfold(decode, b);
    if decode(b).Success? {
      var d := decode(b).value;
      assert b[d.consumed..] == data[pos + d.consumed..];
      var rest := DecodeSegment(decode, data[pos + d.consumed..]);
      ConcatAssociative(Success(decoded), Success([d.log]), rest);
    }
  }

  /** Once the buffer is empty, the decoded records are the segment's records. */
  lemma DecodeEnd(decode: Decoder, data: seq<byte>, decoded: seq<Log>)
    requires Progresses(decode)
    requires DecodeSegment(decode, data) == Concat(Success(decoded), DecodeSegment(decode, data[|data|..]))
    ensures DecodeSegment(decode, data) == Success(decoded)
  {
    assert decoded + [] == decoded;
  }

  /** Two outcomes that agree on success and, when successful, on the records gathered (as a multiset). */
  ghost predicate SameRecords(r1: Result<seq<Log>, string>, r2: Result<seq<Log>, string>) {
    r1.Success? == r2.Success? && (r1.Success? ==> multiset(r1.value) == multiset(r2.value))
  }

  lemma ConcatCongruent(a: Result<seq<Log>, string>, a': Result<seq<Log>, string>,
                        b: Result<seq<Log>, string>, b': Result<seq<Log>, string>)
    requires SameRecords(a, a') && SameRecords(b, b')
    ensures SameRecords(Concat(a, b), Concat(a', b'))
  {
  }

  lemma ConcatCommutes(a: Result<seq<Log>, string>, b: Result<seq<Log>, string>)
    ensures SameRecords(Concat(a, b), Concat(b, a))
  {
  }

  /** Decoding two lists of segments one after the other is decoding their concatenation. */
  lemma {:induction false} DecodeAllAppend(decode: Decoder, s: seq<seq<byte>>, t: seq<seq<byte>>)
    requires Progresses(decode)
    ensures DecodeAll(decode, s + t) == Concat(DecodeAll(decode, s), DecodeAll(decode, t))
    decreases |t|
  {
    if t == [] {
      assert s + t == s;
      var d := DecodeAll(decode, s);
      assert d.Success? ==> d.value + [] == d.value;
    } else {
      var t' := t[..|t| - 1];
      assert (s + t)[..|s + t| - 1] == s + t';
      assert (s + t)[|s + t| - 1] == t[|t| - 1];
      DecodeAllAppend(decode, s, t');
      ConcatAssociative(DecodeAll(decode, s), DecodeAll(decode, t'), DecodeSegment(decode, t[|t| - 1]));
    }
  }

  /**
   * Permuting the segments changes neither whether recovery succeeds nor,
   * as a multiset, the records it gathers.
   */
  lemma {:induction false} DecodeAllPermutation(decode: Decoder, s1: seq<seq<byte>>, s2: seq<seq<byte>>)
    requires Progresses(decode)
    requires multiset(s1) == multiset(s2)
    ensures SameRecords(DecodeAll(decode, s1), DecodeAll(decode, s2))
    decreases |s1|
  {
    if s1 == [] {
      assert |multiset(s2)| == 0;
      assert s2 == [];
    } else {
      var n := |s1|;
      var x := s1[n - 1];
      var rest1 := s1[..n - 1];
      assert s1 == rest1 + [x];
      assert x in multiset(s2);
      var k :| 0 <= k < |s2| && s2[k] == x;
      var left, right := s2[..k], s2[k + 1..];
      assert s2 == left + [x] + right;
      MultisetWithout(s1, n - 1);
      MultisetWithout(s2, k);
      assert s1[..n - 1] + s1[n..] == rest1;
      DecodeAllPermutation(decode, rest1, left + right);
      var A, C, X := DecodeAll(decode, left), DecodeAll(decode, right), DecodeSegment(decode, x);
      // DecodeAll(s1) == Concat(DecodeAll(rest1), X) ~ Concat(Concat(A, C), X)
      DecodeAllAppend(decode, left, right);
      ConcatCongruent(DecodeAll(decode, rest1), Concat(A, C), X, X);
      // Concat(Concat(A, C), X) ~ Concat(Concat(A, X), C) == DecodeAll(s2)
      ConcatAssociative(A, C, X);
      ConcatCommutes(C, X);
      ConcatCongruent(A, A, Concat(C, X), Concat(X, C));
      ConcatAssociative(A, X, C);
      assert (left + [x])[..|left + [x]| - 1] == left;
      DecodeAllAppend(decode, left + [x], right);
    }
  }

  lemma MultisetWithout<T>(s: seq<T>, k: nat)
    requires k < |s|
    ensures multiset(s[..k] + s[k + 1..]) == multiset(s) - multiset{s[k]}
  {
    assert s == s[..k] + [s[k]] + s[k + 1..];
  }


  /** Both lists start with the record of least LSN, which distinctness makes unique. */
  lemma SortedHeadsEqual(a: seq<Log>, b: seq<Log>)
    requires SortedByLsn(a) && SortedByLsn(b) && DistinctLsns(a)
    requires multiset(a) == multiset(b)
    requires |a| > 0
    ensures |b| > 0 && a[0] == b[0]
  {
    assert |a| == |multiset(a)| == |multiset(b)| == |b|;
    assert a[0] in multiset(b);
    var j :| 0 <= j < |b| && b[j] == a[0];
    assert b[0] in multiset(a);
    var i :| 0 <= i < |a| && a[i] == b[0];
    assert b[0].lsn <= b[j].lsn;
    assert a[0].lsn <= a[i].lsn;
    assert a[i].lsn == a[0].lsn;
    assert i == 0;
  }

  /** Past equal heads, the tails are again sorted permutations of each other with distinct LSNs. */
  lemma SortedTails(a: seq<Log>, b: seq<Log>)
    requires SortedByLsn(a) && SortedByLsn(b) && DistinctLsns(a)
    requires multiset(a) == multiset(b)
    requires |a| > 0
    ensures |b| > 0 && a[0] == b[0]
    ensures SortedByLsn(a[1..]) && SortedByLsn(b[1..]) && DistinctLsns(a[1..])
    ensures multiset(a[1..]) == multiset(b[1..])
  {
    SortedHeadsEqual(a, b);
    SortedTail(a);
    SortedTail(b);
    MultisetTails(a, b);
  }

  lemma SortedTail(s: seq<Log>)
    requires |s| > 0 && SortedByLsn(s)
    ensures SortedByLsn(s[1..])
    ensures DistinctLsns(s) ==> DistinctLsns(s[1..])
  {
  }

  lemma MultisetTails<T>(a: seq<T>, b: seq<T>)
    requires |a| > 0 && |b| > 0 && a[0] == b[0]
    requires multiset(a) == multiset(b)
    ensures multiset(a[1..]) == multiset(b[1..])
  {
    assert a == [a[0]] + a[1..];
    assert b == [b[0]] + b[1..];
    calc {
      multiset(a[1..]);
      multiset(a) - multiset{a[0]};
      multiset(b) - multiset{b[0]};
      multiset(b[1..]);
    }
  }

  /** Sorted lists of records with distinct LSNs that are permutations of each other are equal. */
  lemma {:induction false} SortedPermutationsEqual(a: seq<Log>, b: seq<Log>)
    requires SortedByLsn(a) && SortedByLsn(b) && DistinctLsns(a)
    requires multiset(a) == multiset(b)
    ensures a == b
    decreases |a|
  {
    if |a| == 0 {
      assert |multiset(b)| == 0;
    } else {
      SortedTails(a, b);
      SortedPermutationsEqual(a[1..], b[1..]);
      assert a == [a[0]] + a[1..] && b == [b[0]] + b[1..];
    }
  }

  /**
   * When the recovered LSNs are distinct, the result of Read does not depend
   * on the order in which the directory enumerates the segments: any two
   * results that meet Read's postcondition for permuted segment lists agree.
   */
  lemma ReadIsOrderIndependent(decode: Decoder, s1: seq<seq<byte>>, s2: seq<seq<byte>>,
                               logs1: seq<Log>, logs2: seq<Log>)
    requires Progresses(decode)
    requires multiset(s1) == multiset(s2)
    requires DecodeAll(decode, s1).Success?
    requires SortedByLsn(logs1) && multiset(logs1) == multiset(DecodeAll(decode, s1).value)
    requires DistinctLsns(logs1)
    ensures DecodeAll(decode, s2).Success?
    ensures SortedByLsn(logs2) && multiset(logs2) == multiset(DecodeAll(decode, s2).value) ==> logs1 == logs2
  {
    DecodeAllPermutation(decode, s1, s2);
    if SortedByLsn(logs2) && multiset(logs2) == multiset(DecodeAll(decode, s2).value) {
      SortedPermutationsEqual(logs1, logs2);
    }
  }
}
