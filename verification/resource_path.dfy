/**
 * The resource path carried by a change notification, and how the handlers
 * take it apart: Python's `resource.split("/")`, accepted when it has at
 * least four segments one of which is exactly "recordings"; the recording id
 * is the last segment and the call id the third from last.
 */
module ResourcePath {
  import opened Wrappers

  const Separator: char := '/'
  const RecordingsMarker: string := "recordings"
  const MinSegments: nat := 4

  /** The path shape the handlers expect, `communications/callRecords/{call}/recordings/{rec}`. */
  function CanonicalResource(callId: string, recordingId: string): string {
    "communications/callRecords/" + callId + "/recordings/" + recordingId
  }

  predicate SeparatorFree(segment: string) {
    Separator !in segment
  }

  predicate AllSeparatorFree(parts: seq<string>) {
    forall i | 0 <= i < |parts| :: SeparatorFree(parts[i])
  }

  /** Python's `s.split("/")`: never empty, and no segment contains the separator. */
  function Split(s: string): (parts: seq<string>)
    ensures |parts| >= 1
    ensures AllSeparatorFree(parts)
    decreases |s|
  {
    if |s| == 0 then [""]
    else
      var rest := Split(s[1..]);
      if s[0] == Separator then [""] + rest
      else [[s[0]] + rest[0]] + rest[1..]
  }

  /** Python's `"/".join(parts)`, the inverse of Split. */
  function Join(parts: seq<string>): string {
    if |parts| == 0 then ""
    else if |parts| == 1 then parts[0]
    else parts[0] + [Separator] + Join(parts[1..])
  }

  lemma {:induction false} JoinOfSplit(s: string)
    ensures Join(Split(s)) == s
    decreases |s|
  {
    if |s| > 0 {
      var rest := Split(s[1..]);
      JoinOfSplit(s[1..]);
      assert s == [s[0]] + s[1..];
      if s[0] == Separator {
        assert ([""] + rest)[1..] == rest;
      } else {
        var head := [s[0]] + rest[0];
        if |rest| > 1 {
          assert ([head] + rest[1..])[1..] == rest[1..];
        }
      }
    }
  }

  /** Splitting text that starts with a separator-free run glues that run to the first segment. */
  lemma {:induction false} SplitAfterSeparatorFree(a: string, b: string)
    requires SeparatorFree(a)
    ensures Split(a + b) == [a + Split(b)[0]] + Split(b)[1..]
    decreases |a|
  {
    if |a| > 0 {
      var parts := Split(b);
      SplitAfterSeparatorFree(a[1..], b);
      assert (a + b)[1..] == a[1..] + b;
      assert (a + b)[0] == a[0] != Separator;
      var rest := Split(a[1..] + b);
      assert rest == [a[1..] + parts[0]] + parts[1..];
      assert Split(a + b) == [[a[0]] + rest[0]] + rest[1..];
      assert rest[1..] == parts[1..];
      assert [a[0]] + (a[1..] + parts[0]) == a + parts[0];
    } else {
      var parts := Split(b);
      assert a + b == b;
      assert a + parts[0] == parts[0];
      assert parts == [parts[0]] + parts[1..];
    }
  }

  lemma {:induction false} SplitOfJoin(parts: seq<string>)
    requires |parts| >= 1
    requires AllSeparatorFree(parts)
    ensures Split(Join(parts)) == parts
    decreases |parts|
  {
    SplitAfterSeparatorFree(parts[0], []);
    assert parts[0] + [] == parts[0];
    if |parts| > 1 {
      var tail := Join(parts[1..]);
      SplitOfJoin(parts[1..]);
      SplitAfterSeparatorFree(parts[0], [Separator] + tail);
      assert parts[0] + [Separator] + tail == parts[0] + ([Separator] + tail);
      assert ([Separator] + tail)[1..] == tail;
      assert parts == [parts[0]] + parts[1..];
    }
  }

  /** The segment count is one more than the number of separators. */
  lemma {:induction false} SplitCountsSeparators(s: string)
    ensures |Split(s)| == multiset(s)[Separator] + 1
    decreases |s|
  {
    if |s| > 0 {
      SplitCountsSeparators(s[1..]);
      assert s == [s[0]] + s[1..];
      assert multiset(s) == multiset([s[0]]) + multiset(s[1..]);
    }
  }

  /** The two identifiers a recording notification names. */
  datatype RecordingRef = RecordingRef(callId: string, recordingId: string)

  /** The acceptance rule on the segments: at least four, one of them exactly
      the marker; the ids are then taken by position from the end. */
  function ParseSegments(parts: seq<string>): (r: Option<RecordingRef>)
    ensures r.Some? ==> |parts| >= MinSegments && RecordingsMarker in parts
    ensures r.Some? ==> r.value == RecordingRef(parts[|parts| - 3], parts[|parts| - 1])
    ensures |parts| >= MinSegments && RecordingsMarker in parts ==> r.Some?
  {
    if |parts| >= MinSegments && RecordingsMarker in parts then
      Some(RecordingRef(parts[|parts| - 3], parts[|parts| - 1]))
    else
      None
  }

  /** Python's `resource.split("/")` followed by the acceptance rule. */
  function ParseResource(resource: string): (r: Option<RecordingRef>)
    ensures r.Some? ==> multiset(resource)[Separator] >= MinSegments - 1
    ensures r.Some? ==> SeparatorFree(r.value.callId) && SeparatorFree(r.value.recordingId)
  {
    SplitCountsSeparators(resource);
    ParseSegments(Split(resource))
  }

  /** Parsing a path assembled from separator-free segments: accepted exactly when
      there are at least four segments and one is the marker, with the ids read
      from the last and third-from-last segments. Every path is such a join
      (JoinOfSplit), so this decides every input. */
  lemma ParseOfJoin(parts: seq<string>)
    requires |parts| >= 1
    requires AllSeparatorFree(parts)
    ensures ParseResource(Join(parts)) ==
      if |parts| >= MinSegments && RecordingsMarker in parts
      then Some(RecordingRef(parts[|parts| - 3], parts[|parts| - 1]))
      else None
  {
    SplitOfJoin(parts);
    assert ParseResource(Join(parts)) == ParseSegments(parts);
  }

  /** The documented shape yields exactly its call and recording ids. */
  lemma ParseCanonical(callId: string, recordingId: string)
    requires SeparatorFree(callId) && SeparatorFree(recordingId)
    ensures ParseResource(CanonicalResource(callId, recordingId)) == Some(RecordingRef(callId, recordingId))
  {
    var parts := ["communications", "callRecords", callId, "recordings", recordingId];
    var j4 := recordingId;
    var j3 := "recordings" + [Separator] + j4;
    var j2 := callId + [Separator] + j3;
    var j1 := "callRecords" + [Separator] + j2;
    assert parts[4..] == [recordingId];
    assert Join(parts[4..]) == j4;
    assert parts[3..] == ["recordings", recordingId];
    assert Join(parts[3..]) == j3;
    assert parts[2..] == [callId, "recordings", recordingId];
    assert Join(parts[2..]) == j2;
    assert parts[1..] == ["callRecords", callId, "recordings", recordingId];
    assert Join(parts[1..]) == j1;
    assert Join(parts) == "communications" + [Separator] + j1;
    assert Join(parts) == CanonicalResource(callId, recordingId);
    assert parts[3] == RecordingsMarker;
    ParseOfJoin(parts);
  }

  /** The call id is read by position, not from next to the marker: with the marker
      first, the call id is the segment right after it. */
  lemma CallIdIsPositional(x: string, y: string, z: string)
    requires SeparatorFree(x) && SeparatorFree(y) && SeparatorFree(z)
    ensures ParseResource(Join([RecordingsMarker, x, y, z])) == Some(RecordingRef(x, z))
  {
    var parts := [RecordingsMarker, x, y, z];
    assert parts[0] == RecordingsMarker;
    ParseOfJoin(parts);
  }
}
