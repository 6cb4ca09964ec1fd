/** Webcam bookkeeping: the enumerated video devices (a JavaScript `Map` keyed by
    deviceId, kept in insertion order), the selected device, its resolution tier,
    and the front/back classification of a device label. */
module Webcams {
  import opened Common

  /** A MediaDeviceInfo as returned by device enumeration. */
  datatype Device = Device(deviceId: string, kind: string, deviceLabel: string)

  const VideoInput: string := "videoinput"

  /** The three capture tiers of VIDEO_CONSTRAINS; only the labels matter here. */
  datatype Resolution = Qvga | Vga | Hd

  /** The `switch` of `changeWebcamResolution`: qvga -> vga -> hd -> qvga. */
  function NextResolution(r: Resolution): (n: Resolution)
    ensures n != r
    ensures r == Hd <==> n == Qvga
  {
    match r
    case Qvga => Vga
    case Vga => Hd
    case Hd => Qvga
  }

  /** The tier cycle has period exactly three. */
  lemma ResolutionCycle(r: Resolution)
    ensures NextResolution(NextResolution(NextResolution(r))) == r
    ensures NextResolution(NextResolution(r)) != r
  {
  }

  // ---------------------------------------------------------------------------
  // The device map

  /** The keys of the map, in insertion order. */
  function Ids(ws: seq<Device>): (r: seq<string>)
    ensures |r| == |ws| && forall i :: 0 <= i < |ws| ==> r[i] == ws[i].deviceId
  {
    seq(|ws|, i requires 0 <= i < |ws| => ws[i].deviceId)
  }

  /** `Map.prototype.set(d.deviceId, d)`: an existing key keeps its position and gets
      the new value; a new key is appended. */
  function Put(ws: seq<Device>, d: Device): (r: seq<Device>)
    ensures Ids(r) == if d.deviceId in Ids(ws) then Ids(ws) else Ids(ws) + [d.deviceId]
    ensures d in r
    ensures forall e :: e in r ==> e in ws || e == d
    ensures forall i :: 0 <= i < |ws| && ws[i].deviceId != d.deviceId ==> r[i] == ws[i]
  {
    var i := IndexOf(Ids(ws), d.deviceId);
    if i < 0 then ws + [d]
    else
      assert Ids(ws[i := d]) == Ids(ws);
      ws[i := d]
  }

  /** The map `_updateWebcams` builds from the enumerated devices: every `videoinput`
      device is `set` under its deviceId, in enumeration order. */
  function Collect(ds: seq<Device>): (r: seq<Device>)
    ensures |r| <= |ds|
    ensures forall e :: e in r ==> e in ds && e.kind == VideoInput
  {
    if |ds| == 0 then []
    else
      var d := ds[|ds| - 1];
      var before := Collect(ds[..|ds| - 1]);
      if d.kind == VideoInput then Put(before, d) else before
  }

  /** The `videoinput` devices of an enumeration, in order: an independent reading of
      what the map holds when no deviceId repeats. */
  function VideoInputs(ds: seq<Device>): seq<Device> {
    if |ds| == 0 then []
    else
      var d := ds[|ds| - 1];
      VideoInputs(ds[..|ds| - 1]) + (if d.kind == VideoInput then [d] else [])
  }

  /** The map holds only video inputs taken from the enumeration, under distinct keys,
      and every video input of the enumeration has its key in it. */
  lemma {:induction false} CollectWellFormed(ds: seq<Device>)
    ensures Distinct(Ids(Collect(ds)))
    ensures forall e :: e in Collect(ds) ==> e in ds && e.kind == VideoInput
    ensures forall d :: d in ds && d.kind == VideoInput ==> d.deviceId in Ids(Collect(ds))
  {
    if |ds| > 0 {
      var pre := ds[..|ds| - 1];
      var d := ds[|ds| - 1];
      CollectWellFormed(pre);
      assert ds == pre + [d];
      var before := Collect(pre);
      if d.kind == VideoInput {
        var r := Put(before, d);
        assert r == Collect(ds);
        forall e | e in before ensures e.deviceId in Ids(r) {
          var k :| 0 <= k < |before| && before[k] == e;
          assert Ids(before)[k] == e.deviceId;
        }
        var k :| 0 <= k < |r| && r[k] == d;
        assert Ids(r)[k] == d.deviceId;
      }
    }
  }

  /** When the enumeration repeats no video deviceId, the map is exactly the list of
      video inputs in enumeration order. */
  lemma {:induction false} CollectIsVideoInputs(ds: seq<Device>)
    requires Distinct(Ids(VideoInputs(ds)))
    ensures Collect(ds) == VideoInputs(ds)
  {
    if |ds| > 0 {
      var pre := ds[..|ds| - 1];
      var d := ds[|ds| - 1];
      var vs := VideoInputs(pre);
      if d.kind == VideoInput {
        assert VideoInputs(ds) == vs + [d];
        assert Ids(vs + [d]) == Ids(vs) + [d.deviceId];
        assert Ids(vs) == Ids(vs + [d])[..|vs|];
        assert Distinct(Ids(vs));
        CollectIsVideoInputs(pre);
        assert d.deviceId !in Ids(vs) by {
          forall k | 0 <= k < |vs| ensures Ids(vs)[k] != d.deviceId {
            assert Ids(vs + [d])[k] != Ids(vs + [d])[|vs|];
          }
        }
      } else {
        assert VideoInputs(ds) == vs;
        CollectIsVideoInputs(pre);
      }
    }
  }

  // ---------------------------------------------------------------------------
  // The selected device

  /** `_updateWebcams` fixing up the selection against the fresh map: no device gives
      no selection, a selection whose key vanished becomes the first device, and a
      selection whose key is still present is kept as it was. */
  function Reselect(ws: seq<Device>, current: Option<Device>): (r: Option<Device>)
    ensures r.None? <==> |ws| == 0
    ensures r.Some? ==> r.value.deviceId in Ids(ws)
    ensures current.Some? && current.value.deviceId in Ids(ws) ==> r == current
    ensures r != current ==> |ws| == 0 || r == Some(ws[0])
  {
    if |ws| == 0 then None
    else if current.Some? && current.value.deviceId in Ids(ws) then current
    else Some(ws[0])
  }

  /** `changeWebcam`: the device after the selected one in key order, wrapping to the
      first; the first device when nothing listed is selected; none when the map is empty. */
  function NextWebcam(ws: seq<Device>, current: Option<Device>): (r: Option<Device>)
    ensures r.None? <==> |ws| == 0
    ensures r.Some? ==> r.value in ws
    ensures |ws| > 0 && (current.None? || current.value.deviceId !in Ids(ws)) ==> r == Some(ws[0])
  {
    var keys := Ids(ws);
    var idx := if current.Some? then IndexOf(keys, current.value.deviceId) else -1;
    var next := if idx < |keys| - 1 then idx + 1 else 0;
    if next < |ws| then Some(ws[next]) else None
  }

  /** With distinct keys, the device selected at position i advances to position
      i + 1, and the last one wraps round to the first. */
  lemma NextWebcamWraps(ws: seq<Device>, i: nat)
    requires Distinct(Ids(ws)) && i < |ws|
    ensures NextWebcam(ws, Some(ws[i])) == Some(ws[if i + 1 < |ws| then i + 1 else 0])
  {
    IndexOfDistinct(Ids(ws), i);
  }

  /** `f` applied n times. */
  function Iterate<T>(f: T -> T, x: T, n: nat): T {
    if n == 0 then x else f(Iterate(f, x, n - 1))
  }

  lemma {:induction false} IterateAdd<T>(f: T -> T, x: T, a: nat, b: nat)
    ensures Iterate(f, x, a + b) == Iterate(f, Iterate(f, x, a), b)
  {
    if b > 0 {
      IterateAdd(f, x, a, b - 1);
    }
  }

  /** A step function that moves one place along `xs`: `Iterate` walks the list. */
  lemma {:induction false} IterateWalks<T>(f: T -> T, xs: seq<T>, i: nat, n: nat)
    requires forall k :: 0 <= k < |xs| - 1 ==> f(xs[k]) == xs[k + 1]
    requires i + n < |xs|
    ensures Iterate(f, xs[i], n) == xs[i + n]
  {
    if n > 0 {
      IterateWalks(f, xs, i, n - 1);
    }
  }

  /** A step function that also wraps from the last place to the first is back where it
      started after |xs| steps. */
  lemma IterateCycles<T>(f: T -> T, xs: seq<T>, i: nat)
    requires forall k :: 0 <= k < |xs| - 1 ==> f(xs[k]) == xs[k + 1]
    requires i < |xs| && f(xs[|xs| - 1]) == xs[0]
    ensures Iterate(f, xs[i], |xs|) == xs[i]
  {
    var last := |xs| - 1;
    IterateWalks(f, xs, i, last - i);
    IterateAdd(f, xs[i], last - i, 1);
    IterateWalks(f, xs, 0, i);
    IterateAdd(f, xs[i], last - i + 1, i);
  }

  /** The selections of the listed devices, in key order. */
  function Selections(ws: seq<Device>): (r: seq<Option<Device>>)
    ensures |r| == |ws| && forall k :: 0 <= k < |ws| ==> r[k] == Some(ws[k])
  {
    seq(|ws|, k requires 0 <= k < |ws| => Some(ws[k]))
  }

  /** `changeWebcam` applied n times to an unchanged map. */
  function Advance(ws: seq<Device>, current: Option<Device>, n: nat): Option<Device> {
    Iterate(c => NextWebcam(ws, c), current, n)
  }

  /** One switch moves one place along the selections. */
  lemma AdvanceSteps(ws: seq<Device>)
    requires Distinct(Ids(ws))
    ensures forall k :: 0 <= k < |ws| - 1 ==> NextWebcam(ws, Selections(ws)[k]) == Selections(ws)[k + 1]
    ensures |ws| > 0 ==> NextWebcam(ws, Selections(ws)[|ws| - 1]) == Selections(ws)[0]
  {
    forall k | 0 <= k < |ws| {
      NextWebcamWraps(ws, k);
    }
  }

  /** Before wrapping, each switch moves one position further down the list. */
  lemma AdvanceWalks(ws: seq<Device>, i: nat, n: nat)
    requires Distinct(Ids(ws)) && i + n < |ws|
    ensures Advance(ws, Some(ws[i]), n) == Some(ws[i + n])
  {
    var f := c => NextWebcam(ws, c);
    AdvanceSteps(ws);
    IterateWalks(f, Selections(ws), i, n);
  }

  /** Switching visits every device once and is back at the start after |ws| switches. */
  lemma AdvanceCycles(ws: seq<Device>, i: nat)
    requires Distinct(Ids(ws)) && i < |ws|
    ensures Advance(ws, Some(ws[i]), |ws|) == Some(ws[i])
  {
    var f := c => NextWebcam(ws, c);
    AdvanceSteps(ws);
    IterateCycles(f, Selections(ws), i);
  }

  // ---------------------------------------------------------------------------
  // Front or back camera

  datatype Facing = Front | Back

  /** ASCII lower-casing: the only folding a non-unicode case-insensitive JavaScript
      regular expression applies when the pattern is ASCII letters. */
  function Lower(c: char): char {
    if 'A' <= c <= 'Z' then (c as int - 'A' as int + 'a' as int) as char else c
  }

  /** The lower-case word `w` occurs in `s` at position i, ignoring case. */
  predicate MatchesAt(s: string, i: int, w: string) {
    0 <= i && i + |w| <= |s| && forall k :: 0 <= k < |w| ==> Lower(s[i + k]) == w[k]
  }

  /** Left-to-right search for `w` in `s`, ignoring case. */
  function Occurs(w: string, s: string): bool
    decreases |s|
  {
    if |s| < |w| then false else MatchesAt(s, 0, w) || Occurs(w, s[1..])
  }

  lemma {:induction false} OccursIff(w: string, s: string)
    ensures Occurs(w, s) <==> exists i :: MatchesAt(s, i, w)
    decreases |s|
  {
    if MatchesAt(s, 0, w) {
      assert Occurs(w, s);
    } else if |s| >= |w| && |s| > 0 {
      OccursIff(w, s[1..]);
      // A match in the tail is a match one place further on in `s`, and back.
      forall i | MatchesAt(s[1..], i, w) ensures MatchesAt(s, i + 1, w) {
        forall k | 0 <= k < |w| ensures Lower(s[i + 1 + k]) == w[k] {
          assert s[1..][i + k] == s[i + 1 + k];
        }
      }
      forall i | MatchesAt(s, i, w) ensures MatchesAt(s[1..], i - 1, w) {
        assert i != 0;
        forall k | 0 <= k < |w| ensures Lower(s[1..][i - 1 + k]) == w[k] {
          assert s[1..][i - 1 + k] == s[i + k];
        }
      }
      if Occurs(w, s[1..]) {
        var i :| MatchesAt(s[1..], i, w);
        assert MatchesAt(s, i + 1, w);
      }
    } else {
      assert |s| < |w|;
    }
  }

  /** `_getWebcamType`: `/(back|rear)/i` on the device label. */
  function WebcamType(device: Device): (t: Facing)
    ensures t == Back <==> exists i :: MatchesAt(device.deviceLabel, i, "back") || MatchesAt(device.deviceLabel, i, "rear")
  {
    OccursIff("back", device.deviceLabel);
    OccursIff("rear", device.deviceLabel);
    if Occurs("back", device.deviceLabel) || Occurs("rear", device.deviceLabel) then Back else Front
  }
}
