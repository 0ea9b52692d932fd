/**
 * Device enumeration results and the camera cursor of js/UserMedia.js:
 * the `videoinput` filter of `devicesCallback` and the circular advance of
 * `currentCam` in `nextWebCam`.
 */
module Devices {
  import opened Optional

  const VideoInputKind := "videoinput"

  /** One entry of `enumerateDevices()`: its `kind` and its `deviceId`. */
  datatype MediaDeviceInfo = MediaDeviceInfo(kind: string, deviceId: string)

  predicate IsVideoInput(d: MediaDeviceInfo) {
    d.kind == VideoInputKind
  }

  /** The ids of the video inputs among `ds`, in enumeration order. */
  function VideoIds(ds: seq<MediaDeviceInfo>): seq<string> {
    if ds == [] then []
    else (if IsVideoInput(ds[0]) then [ds[0].deviceId] else []) + VideoIds(ds[1..])
  }

  /** Filtering a concatenation filters each part; this is what lets the filter run entry by entry. */
  lemma {:induction false} VideoIdsAppend(a: seq<MediaDeviceInfo>, b: seq<MediaDeviceInfo>)
    ensures VideoIds(a + b) == VideoIds(a) + VideoIds(b)
  {
    if a == [] {
      assert a + b == b;
    } else {
      assert (a + b)[1..] == a[1..] + b;
      VideoIdsAppend(a[1..], b);
    }
  }

  /** An id is kept exactly when some video-input entry carries it. */
  lemma {:induction false} VideoIdsMembership(ds: seq<MediaDeviceInfo>, id: string)
    ensures id in VideoIds(ds) <==> exists i :: 0 <= i < |ds| && IsVideoInput(ds[i]) && ds[i].deviceId == id
  {
    if ds != [] {
      VideoIdsMembership(ds[1..], id);
      if exists i :: 0 <= i < |ds| && IsVideoInput(ds[i]) && ds[i].deviceId == id {
        var i :| 0 <= i < |ds| && IsVideoInput(ds[i]) && ds[i].deviceId == id;
        if i > 0 {
          assert ds[1..][i - 1] == ds[i];
        }
      }
      if id in VideoIds(ds[1..]) {
        var i :| 0 <= i < |ds[1..]| && IsVideoInput(ds[1..][i]) && ds[1..][i].deviceId == id;
        assert ds[i + 1] == ds[1..][i];
      }
    }
  }

  /** At most one id per entry; none at all exactly when no entry is a video input. */
  lemma {:induction false} VideoIdsLength(ds: seq<MediaDeviceInfo>)
    ensures |VideoIds(ds)| <= |ds|
    ensures VideoIds(ds) == [] <==> forall i :: 0 <= i < |ds| ==> !IsVideoInput(ds[i])
  {
    if ds != [] {
      VideoIdsLength(ds[1..]);
      if VideoIds(ds) == [] {
        forall i | 0 <= i < |ds| ensures !IsVideoInput(ds[i]) {
          if i > 0 { assert ds[1..][i - 1] == ds[i]; }
        }
      } else if !IsVideoInput(ds[0]) {
        var j :| 0 <= j < |ds[1..]| && IsVideoInput(ds[1..][j]);
        assert ds[j + 1] == ds[1..][j];
      }
    }
  }

  /** The number of ids kept from the first `i` entries: the slot entry `i` lands in. */
  function Rank(ds: seq<MediaDeviceInfo>, i: nat): nat
    requires i <= |ds|
  {
    |VideoIds(ds[..i])|
  }

  /**
   * Order is preserved: a video-input entry's id sits at its rank in the
   * result, and of two video-input entries the earlier one has the smaller rank.
   */
  lemma VideoIdsOrder(ds: seq<MediaDeviceInfo>, i: nat, j: nat)
    requires i < j < |ds| && IsVideoInput(ds[i]) && IsVideoInput(ds[j])
    ensures Rank(ds, i) < Rank(ds, j) < |VideoIds(ds)|
    ensures VideoIds(ds)[Rank(ds, i)] == ds[i].deviceId && VideoIds(ds)[Rank(ds, j)] == ds[j].deviceId
  {
    VideoIdsAt(ds, i);
    VideoIdsAt(ds, j);
    assert ds[..j] == ds[..i + 1] + ds[i + 1..j];
    VideoIdsAppend(ds[..i + 1], ds[i + 1..j]);
    assert ds[..i + 1] == ds[..i] + [ds[i]];
    VideoIdsAppend(ds[..i], [ds[i]]);
  }

  /** A video-input entry's id sits at the entry's rank in the filtered list. */
  lemma VideoIdsAt(ds: seq<MediaDeviceInfo>, i: nat)
    requires i < |ds| && IsVideoInput(ds[i])
    ensures Rank(ds, i) < |VideoIds(ds)| && VideoIds(ds)[Rank(ds, i)] == ds[i].deviceId
  {
    assert ds == ds[..i] + ([ds[i]] + ds[i + 1..]);
    VideoIdsAppend(ds[..i], [ds[i]] + ds[i + 1..]);
    assert ([ds[i]] + ds[i + 1..])[1..] == ds[i + 1..];
  }

  /**
   * The device id `webcamList[c]` names: `None` is JavaScript's `undefined`
   * for an index outside the list.
   */
  function DeviceAt(list: seq<string>, c: nat): (r: Option<string>)
    ensures r.Some? <==> c < |list|
    ensures r.Some? ==> r.value == list[c]
  {
    if c < |list| then Some(list[c]) else None
  }

  /**
   * The cursor `nextWebCam` moves to: 0 from `null`, otherwise one further,
   * wrapping to 0 once it reaches the list length.
   */
  function NextCursor(cur: Option<nat>, len: nat): (r: nat)
    ensures r == 0 || r < len
  {
    match cur
    case None => 0
    case Some(c) => if c + 1 >= len then 0 else c + 1
  }

  /** `k` advances of the cursor from position `c`. */
  function Rotate(c: nat, len: nat, k: nat): nat {
    if k == 0 then c else NextCursor(Some(Rotate(c, len, k - 1)), len)
  }

  /** With a non-empty list the cursor never leaves `[0, len)` once set. */
  lemma NextCursorInRange(cur: Option<nat>, len: nat)
    requires len > 0
    ensures NextCursor(cur, len) < len
    ensures cur.None? ==> NextCursor(cur, len) == 0
  {
  }

  /** From a position inside the list, `k` advances that stay inside it move the cursor by `k`. */
  lemma {:induction false} RotateForward(c: nat, len: nat, k: nat)
    requires c + k < len
    ensures Rotate(c, len, k) == c + k
  {
    if k > 0 {
      RotateForward(c, len, k - 1);
    }
  }

  /** Advancing `a` times and then `b` times is advancing `a + b` times. */
  lemma {:induction false} RotateCompose(c: nat, len: nat, a: nat, b: nat)
    ensures Rotate(c, len, a + b) == Rotate(Rotate(c, len, a), len, b)
  {
    if b > 0 {
      RotateCompose(c, len, a, b - 1);
    }
  }

  /** `len` advances with `len` devices bring the cursor back where it started. */
  lemma FullCircle(c: nat, len: nat)
    requires c < len
    ensures Rotate(c, len, len) == c
  {
    RotateForward(c, len, len - 1 - c);
    assert Rotate(c, len, len - c) == 0;
    RotateCompose(c, len, len - c, c);
    RotateForward(0, len, c);
  }
}
