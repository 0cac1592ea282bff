/** The track scanner: walks the variable-length track records that follow
    the header, counting the complete ones and tracking whether every track
    has the same number of points. */
module TrakData {
  import opened Wrappers
  import opened Primitives
  import opened Input
  import opened TrakUtils
  import opened TrakHeader

  /** The `trackSize` value meaning "the point counts differ". */
  const DifferencesExist := -5000

  /** The `trackSize` value before any point count has been read. */
  const Unset := -1

  /** How the scan stopped: the point count could not be read (the normal
      end), or the input ran out inside a record. */
  datatype ScanEnd = EndOfTracks | Aborted

  /** What the scan reports: `tracksSoFar`, `trackSize` and how it ended. */
  datatype ScanSummary = ScanSummary(tracks: nat, trackSize: int, end: ScanEnd)

  // ---------------------------------------------------------------------
  // The specification of the scan

  /** The `trackSize` update made once a record's point count `n` is read. */
  function NextTrackSize(trackSize: int, n: int): int {
    if trackSize == Unset then n
    else if trackSize != DifferencesExist && n != trackSize then DifferencesExist
    else trackSize
  }

  /** Octets taken by `k` floats; a negative `k` makes the loop run zero times. */
  function FloatBytes(k: int): nat {
    4 * Max0(k)
  }

  /** Octets taken by `n` points of `perPoint` floats each, one point after
      the other. */
  function PointsBytes(n: int, perPoint: int): nat
    decreases n
  {
    if n <= 0 then 0 else PointsBytes(n - 1, perPoint) + FloatBytes(perPoint)
  }

  /** Octets of a complete record with point count `n`: the count, `n` points
      of `perPoint` floats each, then `perTrack` property floats. */
  function RecordBytes(n: int, perPoint: int, perTrack: int): nat {
    4 + PointsBytes(n, perPoint) + FloatBytes(perTrack)
  }

  /** The scan of the octets `rest` left after the header, with the counters
      at `tracks` and `trackSize`: fewer than four octets is the end of the
      tracks; a record longer than what is left aborts the scan after its
      count has updated `trackSize`; a complete record is counted and the scan
      goes on after it. */
  function Scan(rest: seq<Byte>, little: bool, perPoint: int, perTrack: int,
                tracks: nat, trackSize: int): (s: ScanSummary)
    decreases |rest|
  {
    if |rest| < 4 then ScanSummary(tracks, trackSize, EndOfTracks)
    else
      var n := IntAt(rest, 0, little);
      var size := NextTrackSize(trackSize, n);
      var next := RecordBytes(n, perPoint, perTrack);
      if next > |rest| then ScanSummary(tracks, size, Aborted)
      else Scan(rest[next..], little, perPoint, perTrack, tracks + 1, size)
  }

  /** `trackSize` after the point counts `counts`, one update per count. */
  function TrackSizeAfter(trackSize: int, counts: seq<int>): int
    decreases |counts|
  {
    if counts == [] then trackSize else TrackSizeAfter(NextTrackSize(trackSize, counts[0]), counts[1..])
  }

  // ---------------------------------------------------------------------
  // The scan loop of printSummary

  /** Reads and discards `k` floats; none when `k` is not positive. */
  method ReadFloats(src: DataSource, little: bool, k: int) returns (r: Result<()>)
    requires src.Valid()
    modifies src
    ensures src.Valid()
    ensures r.Ok? <==> old(src.pos) + FloatBytes(k) <= |src.data|
    ensures r.Ok? ==> src.pos == old(src.pos) + FloatBytes(k)
    ensures r.Failure? ==> src.pos == |src.data|
  {
    var i := 0;
    while i < k
      invariant src.Valid()
      invariant 0 <= i <= Max0(k)
      invariant src.pos == old(src.pos) + 4 * i
      invariant old(src.pos) + 4 * i <= |src.data|
    {
      var _ :- ReadFloat(src, little);
      i := i + 1;
    }
    r := Ok(());
  }

  /** The points of a record: `n` points of `perPoint` floats each. */
  method ReadPoints(src: DataSource, little: bool, n: int, perPoint: int) returns (r: Result<()>)
    requires src.Valid()
    modifies src
    ensures src.Valid()
    ensures r.Ok? <==> old(src.pos) + PointsBytes(n, perPoint) <= |src.data|
    ensures r.Ok? ==> src.pos == old(src.pos) + PointsBytes(n, perPoint)
    ensures r.Failure? ==> src.pos == |src.data|
  {
    var pt := 0;
    while pt < n
      invariant src.Valid()
      invariant 0 <= pt <= Max0(n)
      invariant src.pos == old(src.pos) + PointsBytes(pt, perPoint)
    {
      PointsBytesMonotone(pt + 1, n, perPoint);
      var _ :- ReadFloats(src, little, perPoint);
      pt := pt + 1;
    }
    r := Ok(());
  }

  /** Everything of a record after its point count. */
  method ReadRecordBody(src: DataSource, little: bool, n: int, perPoint: int, perTrack: int)
    returns (r: Result<()>)
    requires src.Valid()
    modifies src
    ensures src.Valid()
    ensures r.Ok? <==> old(src.pos) + RecordBytes(n, perPoint, perTrack) - 4 <= |src.data|
    ensures r.Ok? ==> src.pos == old(src.pos) + RecordBytes(n, perPoint, perTrack) - 4
    ensures r.Failure? ==> src.pos == |src.data|
  {
    var _ :- ReadPoints(src, little, n, perPoint);
    var _ :- ReadFloats(src, little, perTrack);
    r := Ok(());
  }

  /** The scan of `printSummary`: reads records until the point count cannot
      be read, updating `trackSize` from each count and counting each record
      whose floats were all read; stops early when a record is cut short.
      The header's `n_count` plays no part. */
  method ScanTracks(src: DataSource, little: bool, header: Header) returns (s: ScanSummary)
    requires src.Valid()
    modifies src
    ensures s == Scan(src.data[old(src.pos)..], little, header.nScalars + 3, header.nProperties, 0, Unset)
    ensures src.pos == |src.data|
  {
    var perPoint := header.nScalars + 3;
    var perTrack := header.nProperties;
    var tracksSoFar := 0;
    var trackSize := Unset;
    ghost var whole := Scan(src.data[src.pos..], little, perPoint, perTrack, 0, Unset);
    while true
      invariant src.Valid() && old(src.pos) <= src.pos
      invariant Scan(src.data[src.pos..], little, perPoint, perTrack, tracksSoFar, trackSize) == whole
      decreases |src.data| - src.pos
    {
      ghost var q := src.pos;
      var count := ReadInt(src, little);
      if count.Failure? {
        return ScanSummary(tracksSoFar, trackSize, EndOfTracks);
      }
      var n := count.value;
      ghost var next := q + RecordBytes(n, perPoint, perTrack);
      ScanStep(src.data, q, little, perPoint, perTrack, tracksSoFar, trackSize);
      ghost var previous := trackSize;
      if trackSize == Unset {
        trackSize := n;
      } else if trackSize != DifferencesExist && n != trackSize {
        trackSize := DifferencesExist;
      }
      assert trackSize == NextTrackSize(previous, n);
      var body := ReadRecordBody(src, little, n, perPoint, perTrack);
      if body.Failure? {
        assert next > |src.data|;
        return ScanSummary(tracksSoFar, trackSize, Aborted);
      }
      assert src.pos == next <= |src.data|;
      tracksSoFar := tracksSoFar + 1;
    }
  }

  // ---------------------------------------------------------------------
  // Properties of the scan

  /** One round of the loop from offset `q`: the count read there decides
      between an abort and going on after the record. */
  lemma ScanStep(data: seq<Byte>, q: nat, little: bool, perPoint: int, perTrack: int,
                 tracks: nat, trackSize: int)
    requires q + 4 <= |data|
    ensures var n := IntAt(data, q, little);
      var size := NextTrackSize(trackSize, n);
      var next := q + RecordBytes(n, perPoint, perTrack);
      Scan(data[q..], little, perPoint, perTrack, tracks, trackSize)
      == if next > |data| then ScanSummary(tracks, size, Aborted)
         else Scan(data[next..], little, perPoint, perTrack, tracks + 1, size)
  {
    assert data[q..][0..4] == data[q..q + 4];
    var next := q + RecordBytes(IntAt(data, q, little), perPoint, perTrack);
    if next <= |data| {
      assert data[q..][next - q..] == data[next..];
    }
  }

  /** Every counted record took at least the four octets of its count, so
      the scan ends whatever `n_count` says and counts at most a quarter of
      the octets left. */
  lemma {:induction false} ScanCountBound(rest: seq<Byte>, little: bool, perPoint: int, perTrack: int,
                                          tracks: nat, trackSize: int)
    ensures var s := Scan(rest, little, perPoint, perTrack, tracks, trackSize);
      tracks <= s.tracks && 4 * (s.tracks - tracks) <= |rest|
    decreases |rest|
  {
    if |rest| >= 4 {
      var n := IntAt(rest, 0, little);
      var next := RecordBytes(n, perPoint, perTrack);
      if next <= |rest| {
        ScanCountBound(rest[next..], little, perPoint, perTrack, tracks + 1, NextTrackSize(trackSize, n));
      }
    }
  }

  /** Once the counts have differed, the scan reports them as differing. */
  lemma {:induction false} ScanKeepsDifferences(rest: seq<Byte>, little: bool, perPoint: int, perTrack: int,
                                                tracks: nat)
    ensures Scan(rest, little, perPoint, perTrack, tracks, DifferencesExist).trackSize == DifferencesExist
    decreases |rest|
  {
    if |rest| >= 4 {
      var next := RecordBytes(IntAt(rest, 0, little), perPoint, perTrack);
      if next <= |rest| {
        ScanKeepsDifferences(rest[next..], little, perPoint, perTrack, tracks + 1);
      }
    }
  }

  /** More points take at least as many octets. */
  lemma {:induction false} PointsBytesMonotone(m: int, n: int, perPoint: int)
    requires m <= n
    ensures PointsBytes(m, perPoint) <= PointsBytes(n, perPoint)
    decreases n - m
  {
    if m < n {
      PointsBytesMonotone(m, n - 1, perPoint);
    }
  }

  /** The points take four octets per float: `4 * max(0, n) * max(0, perPoint)`. */
  lemma {:induction false} PointsBytesFormula(n: int, perPoint: int)
    ensures PointsBytes(n, perPoint) == 4 * Max0(n) * Max0(perPoint)
    decreases n
  {
    if n > 0 {
      PointsBytesFormula(n - 1, perPoint);
      assert 4 * Max0(n) * Max0(perPoint) == 4 * Max0(n - 1) * Max0(perPoint) + 4 * Max0(perPoint);
    }
  }

  /** A complete record takes the count plus four octets per float read, so
      at least the four octets of its count. */
  lemma RecordBytesFormula(n: int, perPoint: int, perTrack: int)
    ensures RecordBytes(n, perPoint, perTrack) == 4 + 4 * Max0(n) * Max0(perPoint) + 4 * Max0(perTrack)
    ensures RecordBytes(n, perPoint, perTrack) >= 4
  {
    PointsBytesFormula(n, perPoint);
  }

  /** Once the counts have differed, `trackSize` never changes again. */
  lemma {:induction false} DifferencesAreFinal(counts: seq<int>)
    ensures TrackSizeAfter(DifferencesExist, counts) == DifferencesExist
    decreases |counts|
  {
    if counts != [] {
      DifferencesAreFinal(counts[1..]);
    }
  }

  /** Reading `counts` then one more count is one more update. */
  lemma {:induction false} TrackSizeAfterSnoc(trackSize: int, counts: seq<int>, n: int)
    ensures TrackSizeAfter(trackSize, counts + [n]) == NextTrackSize(TrackSizeAfter(trackSize, counts), n)
    decreases |counts|
  {
    if counts == [] {
      assert [] + [n] == [n];
    } else {
      assert (counts + [n])[1..] == counts[1..] + [n];
      TrackSizeAfterSnoc(NextTrackSize(trackSize, counts[0]), counts[1..], n);
    }
  }

  /** What `trackSize` reports: unset before any count, the common count when
      all counts agree, the marker when two differ. This holds whenever the
      first count is not itself a sentinel value; later counts are compared
      with a real count and may be anything. */
  lemma {:induction false} TrackSizeMeaning(counts: seq<int>)
    requires counts == [] || (counts[0] != Unset && counts[0] != DifferencesExist)
    ensures counts == [] ==> TrackSizeAfter(Unset, counts) == Unset
    ensures counts != [] && (forall i :: 0 <= i < |counts| ==> counts[i] == counts[0]) ==>
              TrackSizeAfter(Unset, counts) == counts[0]
    ensures counts != [] && (exists i :: 0 <= i < |counts| && counts[i] != counts[0]) ==>
              TrackSizeAfter(Unset, counts) == DifferencesExist
  {
    if counts != [] {
      assert NextTrackSize(Unset, counts[0]) == counts[0];
      AgreeingCounts(counts[0], counts[1..]);
    }
  }

  /** From a first count `c`, further counts keep `c` while they agree with it
      and turn it into the marker at the first disagreement. */
  lemma {:induction false} AgreeingCounts(c: int, rest: seq<int>)
    requires c != Unset && c != DifferencesExist
    ensures (forall i :: 0 <= i < |rest| ==> rest[i] == c) ==> TrackSizeAfter(c, rest) == c
    ensures (exists i :: 0 <= i < |rest| && rest[i] != c) ==> TrackSizeAfter(c, rest) == DifferencesExist
    decreases |rest|
  {
    if rest != [] {
      if rest[0] == c {
        AgreeingCounts(c, rest[1..]);
        if exists i :: 0 <= i < |rest| && rest[i] != c {
          var i :| 0 <= i < |rest| && rest[i] != c;
          assert rest[1..][i - 1] != c;
        }
        if forall i :: 0 <= i < |rest[1..]| ==> rest[1..][i] == c {
          assert forall i :: 0 <= i < |rest| ==> rest[i] == c by {
            forall i | 0 <= i < |rest| ensures rest[i] == c {
              if i > 0 { assert rest[i] == rest[1..][i - 1]; }
            }
          }
        }
      } else {
        DifferencesAreFinal(rest[1..]);
      }
    }
  }

  /** The sentinels are ordinary `int`s: a first record with point count -1
      leaves `trackSize` unset, so counts -1 then 5 are reported as a fixed 5
      points per track although they differ. A later -1 or -5000 is compared
      with a real count and reported as a difference. */
  lemma SentinelClash()
    ensures TrackSizeAfter(Unset, [-1, 5]) == 5
    ensures TrackSizeAfter(Unset, [5, -1]) == DifferencesExist
    ensures TrackSizeAfter(Unset, [5, DifferencesExist]) == DifferencesExist
  {
    assert [-1, 5][1..] == [5];
    assert [5, -1][1..] == [-1];
    assert [5, DifferencesExist][1..] == [DifferencesExist];
    assert [5][1..] == [] && [-1][1..] == [] && [DifferencesExist][1..] == [];
  }

  // ---------------------------------------------------------------------
  // Streams built from records

  /** `rec` is one complete record: a point count and exactly the floats
      that count calls for. */
  predicate IsRecord(rec: seq<Byte>, little: bool, perPoint: int, perTrack: int) {
    |rec| >= 4 && |rec| == RecordBytes(IntAt(rec, 0, little), perPoint, perTrack)
  }

  predicate AreRecords(recs: seq<seq<Byte>>, little: bool, perPoint: int, perTrack: int) {
    forall i :: 0 <= i < |recs| ==> IsRecord(recs[i], little, perPoint, perTrack)
  }

  /** The point counts the records start with. */
  function CountsOf(recs: seq<seq<Byte>>, little: bool): (counts: seq<int>)
    requires forall i :: 0 <= i < |recs| ==> |recs[i]| >= 4
    ensures |counts| == |recs|
    decreases |recs|
  {
    if recs == [] then [] else [IntAt(recs[0], 0, little)] + CountsOf(recs[1..], little)
  }

  /** Scanning a complete record counts it, applies its count to
      `trackSize`, and goes on with what follows it. */
  lemma ScanOneRecord(rec: seq<Byte>, rest: seq<Byte>, little: bool,
                      perPoint: int, perTrack: int, tracks: nat, trackSize: int)
    requires IsRecord(rec, little, perPoint, perTrack)
    ensures Scan(rec + rest, little, perPoint, perTrack, tracks, trackSize)
         == Scan(rest, little, perPoint, perTrack, tracks + 1, NextTrackSize(trackSize, IntAt(rec, 0, little)))
  {
    var bytes := rec + rest;
    assert bytes[0..4] == rec[0..4];
    assert bytes[|rec|..] == rest;
  }

  /** Scanning complete records followed by `tail` counts every record,
      applies every count to `trackSize`, and goes on with `tail`. */
  lemma {:induction false} ScanOverRecords(recs: seq<seq<Byte>>, tail: seq<Byte>, little: bool,
                                           perPoint: int, perTrack: int, tracks: nat, trackSize: int)
    requires AreRecords(recs, little, perPoint, perTrack)
    ensures Scan(Flatten(recs) + tail, little, perPoint, perTrack, tracks, trackSize)
         == Scan(tail, little, perPoint, perTrack, tracks + |recs|, TrackSizeAfter(trackSize, CountsOf(recs, little)))
    decreases |recs|
  {
    if recs == [] {
      assert Flatten(recs) + tail == tail;
    } else {
      var size := NextTrackSize(trackSize, IntAt(recs[0], 0, little));
      assert Flatten(recs) + tail == recs[0] + (Flatten(recs[1..]) + tail);
      ScanOneRecord(recs[0], Flatten(recs[1..]) + tail, little, perPoint, perTrack, tracks, trackSize);
      assert AreRecords(recs[1..], little, perPoint, perTrack);
      var counts := CountsOf(recs, little);
      assert counts[1..] == CountsOf(recs[1..], little);
      assert TrackSizeAfter(trackSize, counts) == TrackSizeAfter(size, counts[1..]);
      ScanOverRecords(recs[1..], tail, little, perPoint, perTrack, tracks + 1, size);
    }
  }

  /** A stream of complete records ends normally with every record counted. */
  lemma CompleteStream(recs: seq<seq<Byte>>, little: bool, perPoint: int, perTrack: int)
    requires AreRecords(recs, little, perPoint, perTrack)
    ensures Scan(Flatten(recs), little, perPoint, perTrack, 0, Unset)
         == ScanSummary(|recs|, TrackSizeAfter(Unset, CountsOf(recs, little)), EndOfTracks)
  {
    ScanOverRecords(recs, [], little, perPoint, perTrack, 0, Unset);
    assert Flatten(recs) + [] == Flatten(recs);
  }

  /** A record cut short after its point count aborts the scan: the earlier
      records are counted, and the cut record's count has reached `trackSize`. */
  lemma TruncatedStream(recs: seq<seq<Byte>>, cut: seq<Byte>, little: bool, perPoint: int, perTrack: int)
    requires AreRecords(recs, little, perPoint, perTrack)
    requires 4 <= |cut| < RecordBytes(IntAt(cut, 0, little), perPoint, perTrack)
    ensures Scan(Flatten(recs) + cut, little, perPoint, perTrack, 0, Unset)
         == ScanSummary(|recs|, TrackSizeAfter(Unset, CountsOf(recs, little) + [IntAt(cut, 0, little)]), Aborted)
  {
    ScanOverRecords(recs, cut, little, perPoint, perTrack, 0, Unset);
    TrackSizeAfterSnoc(Unset, CountsOf(recs, little), IntAt(cut, 0, little));
  }

  /** Fewer than four octets after the last complete record (in particular
      none) end the scan normally. */
  lemma ShortTail(recs: seq<seq<Byte>>, tail: seq<Byte>, little: bool, perPoint: int, perTrack: int)
    requires AreRecords(recs, little, perPoint, perTrack)
    requires |tail| < 4
    ensures Scan(Flatten(recs) + tail, little, perPoint, perTrack, 0, Unset)
         == ScanSummary(|recs|, TrackSizeAfter(Unset, CountsOf(recs, little)), EndOfTracks)
  {
    ScanOverRecords(recs, tail, little, perPoint, perTrack, 0, Unset);
  }

  /** Nothing after the header: no tracks, and `trackSize` still unset. */
  lemma EmptyInput(rest: seq<Byte>, little: bool, perPoint: int, perTrack: int)
    requires |rest| < 4
    ensures Scan(rest, little, perPoint, perTrack, 0, Unset) == ScanSummary(0, Unset, EndOfTracks)
  {
  }

  /** A record with point count `n` and the `body` of floats after it. */
  function EncodeRecord(n: Int32, body: seq<Byte>, little: bool): seq<Byte> {
    EncodeInt32(n, little) + body
  }

  /** An encoded record with a body of the right size is a record
      starting with its count. */
  lemma EncodedRecord(n: Int32, body: seq<Byte>, little: bool, perPoint: int, perTrack: int)
    requires |body| == RecordBytes(n, perPoint, perTrack) - 4
    ensures IntAt(EncodeRecord(n, body, little), 0, little) == n
    ensures IsRecord(EncodeRecord(n, body, little), little, perPoint, perTrack)
  {
    assert EncodeRecord(n, body, little)[0..4] == EncodeInt32(n, little);
    Int32RoundTrip(n, little);
  }

  /** Two tracks of 5 points (no scalars, no properties): fixed size 5, 2 tracks. */
  lemma FixedExample(b1: seq<Byte>, b2: seq<Byte>, little: bool)
    requires |b1| == 60 && |b2| == 60
    ensures Scan(EncodeRecord(5, b1, little) + EncodeRecord(5, b2, little), little, 3, 0, 0, Unset)
         == ScanSummary(2, 5, EndOfTracks)
  {
    PointsBytesFormula(5, 3);
    TwoRecords(5, 5, b1, b2, little);
    assert [5, 5][1..] == [5];
  }

  /** Tracks of 5 and then 7 points: varying sizes, 2 tracks. */
  lemma VaryingExample(b1: seq<Byte>, b2: seq<Byte>, little: bool)
    requires |b1| == 60 && |b2| == 84
    ensures Scan(EncodeRecord(5, b1, little) + EncodeRecord(7, b2, little), little, 3, 0, 0, Unset)
         == ScanSummary(2, DifferencesExist, EndOfTracks)
  {
    PointsBytesFormula(5, 3);
    PointsBytesFormula(7, 3);
    TwoRecords(5, 7, b1, b2, little);
    assert [5, 7][1..] == [7];
  }

  lemma TwoRecords(n1: Int32, n2: Int32, b1: seq<Byte>, b2: seq<Byte>, little: bool)
    requires |b1| == RecordBytes(n1, 3, 0) - 4 && |b2| == RecordBytes(n2, 3, 0) - 4
    ensures Scan(EncodeRecord(n1, b1, little) + EncodeRecord(n2, b2, little), little, 3, 0, 0, Unset)
         == ScanSummary(2, TrackSizeAfter(Unset, [n1, n2]), EndOfTracks)
  {
    var r1, r2 := EncodeRecord(n1, b1, little), EncodeRecord(n2, b2, little);
    EncodedRecord(n1, b1, little, 3, 0);
    EncodedRecord(n2, b2, little, 3, 0);
    var recs := [r1, r2];
    var others := recs[1..];
    assert others == [r2] && |others[1..]| == 0;
    assert Flatten(others[1..]) == [];
    assert Flatten(others) == r2 + [];
    assert Flatten(recs) == r1 + (r2 + []);
    assert r1 + (r2 + []) == r1 + r2;
    assert CountsOf(recs, little) == [n1] + ([n2] + []);
    assert [n1] + ([n2] + []) == [n1, n2];
    CompleteStream(recs, little, 3, 0);
  }
}
