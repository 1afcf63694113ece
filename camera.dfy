/**
 * Camera selection: given the devices the platform enumerated, pick the
 * camera id the scanner asks for first. A device whose lower-cased label
 * mentions "back" or "rear" is preferred; otherwise the first device is used;
 * an empty list (or an empty id) yields "No camera found".
 */
module Camera {
  import opened Wrappers

  /** One enumerated camera: an opaque id and a human-readable label. */
  datatype Device = Device(id: string, labelText: string)

  /** Why no camera id could be chosen; both cases lead to the facing-mode fallback. */
  datatype SelectError = EnumerationFailed | NoCameraFound

  /** Lower-cases one character; only the ASCII letters A-Z are mapped. */
  function ToLowerAscii(c: char): (r: char)
    ensures 'A' <= c <= 'Z' ==> 'a' <= r <= 'z' && r as int - c as int == 32
    ensures !('A' <= c <= 'Z') ==> r == c
  {
    if 'A' <= c <= 'Z' then (c as int + 32) as char else c
  }

  /** `String.prototype.toLowerCase`, restricted to ASCII. */
  function Lower(s: string): (r: string)
    ensures |r| == |s|
    ensures forall i :: 0 <= i < |s| ==> r[i] == ToLowerAscii(s[i])
    ensures forall i :: 0 <= i < |r| ==> !('A' <= r[i] <= 'Z')
  {
    if s == [] then [] else [ToLowerAscii(s[0])] + Lower(s[1..])
  }

  predicate StartsWith(s: string, p: string) {
    |p| <= |s| && s[..|p|] == p
  }

  /** `String.prototype.includes`: `p` occurs in `s` at some offset. */
  predicate Contains(s: string, p: string): (r: bool)
    ensures r ==> |p| <= |s|
    ensures p == [] ==> r
    decreases |s|
  {
    StartsWith(s, p) || (s != [] && Contains(s[1..], p))
  }

  /** `p` occurs in `s` starting at offset `k`. */
  predicate OccursAt(s: string, p: string, k: int) {
    0 <= k <= |s| - |p| && s[k..k + |p|] == p
  }

  /** `p` occurs in `s` at some offset: the positional definition of a substring. */
  ghost predicate Occurs(s: string, p: string) {
    exists k :: OccursAt(s, p, k)
  }

  /** Contains agrees with the positional definition of a substring, in both directions. */
  lemma {:induction false} ContainsIff(s: string, p: string)
    ensures Contains(s, p) <==> Occurs(s, p)
    decreases |s|
  {
    if StartsWith(s, p) {
      assert OccursAt(s, p, 0);
    } else if s != [] {
      ContainsIff(s[1..], p);
      var t := s[1..];
      if exists k :: OccursAt(t, p, k) {
        var k :| OccursAt(t, p, k);
        var here, there := s[k + 1..k + 1 + |p|], t[k..k + |p|];
        assert forall j :: 0 <= j < |p| ==> here[j] == there[j];
        assert OccursAt(s, p, k + 1);
      }
      if exists k :: OccursAt(s, p, k) {
        var k :| OccursAt(s, p, k);
        if k > 0 {
          var here, there := t[k - 1..k - 1 + |p|], s[k..k + |p|];
          assert forall j :: 0 <= j < |p| ==> here[j] == there[j];
          assert OccursAt(t, p, k - 1);
        }
      }
    }
  }

  /** The label test of the device search: lower-cased label contains "back" or "rear". */
  predicate IsRearLabel(text: string) {
    Contains(Lower(text), "back") || Contains(Lower(text), "rear")
  }

  /** A label is a rear label exactly when "back" or "rear" occurs at some offset of its lower-cased form. */
  lemma {:induction false} RearLabelIff(text: string)
    ensures IsRearLabel(text) <==> Occurs(Lower(text), "back") || Occurs(Lower(text), "rear")
  {
    ContainsIff(Lower(text), "back");
    ContainsIff(Lower(text), "rear");
  }

  /** `devices.find(...)`: the index of the first device with a rear label, if any. */
  function FindRear(devices: seq<Device>): (r: Option<nat>)
    ensures r.Some? ==> r.value < |devices| && IsRearLabel(devices[r.value].labelText)
    ensures r.Some? ==> forall j :: 0 <= j < r.value ==> !IsRearLabel(devices[j].labelText)
    ensures r.None? <==> forall j :: 0 <= j < |devices| ==> !IsRearLabel(devices[j].labelText)
  {
    if devices == [] then None
    else if IsRearLabel(devices[0].labelText) then Some(0)
    else match FindRear(devices[1..])
      case None => None
      case Some(i) => Some(i + 1)
  }

  /** `backCamera ? backCamera.id : devices[0]?.id`. */
  function SelectCamera(devices: seq<Device>): (r: Option<string>)
    ensures r.None? <==> devices == []
    ensures forall i :: (0 <= i < |devices| && IsRearLabel(devices[i].labelText) &&
              forall j :: 0 <= j < i ==> !IsRearLabel(devices[j].labelText)) ==>
              r == Some(devices[i].id)
    ensures devices != [] && (forall j :: 0 <= j < |devices| ==> !IsRearLabel(devices[j].labelText)) ==>
              r == Some(devices[0].id)
  {
    match FindRear(devices)
    case Some(i) => Some(devices[i].id)
    case None => if devices == [] then None else Some(devices[0].id)
  }

  /**
   * The id the exact-device attempt uses, or why there is none: the
   * enumeration rejected (`cameras` is None), or `!cameraId` threw "No camera
   * found" because no device was listed or the chosen id is the empty string.
   */
  function CameraId(cameras: Option<seq<Device>>): (r: Result<string, SelectError>)
    ensures cameras.None? ==> r == Err(EnumerationFailed)
    ensures cameras == Some([]) ==> r == Err(NoCameraFound)
    ensures r.Ok? ==>
              r.value != "" && cameras.Some? &&
              exists i :: 0 <= i < |cameras.value| && cameras.value[i].id == r.value
    ensures r.Ok? <==> cameras.Some? && SelectCamera(cameras.value).Some? && SelectCamera(cameras.value).value != ""
    ensures cameras.Some? && SelectCamera(cameras.value) == Some("") ==> r == Err(NoCameraFound)
    ensures cameras.Some? && cameras.value != [] && SelectCamera(cameras.value).value != "" ==>
              r == Ok(SelectCamera(cameras.value).value)
  {
    match cameras
    case None => Err(EnumerationFailed)
    case Some(devices) =>
      match SelectCamera(devices)
      case None => Err(NoCameraFound)
      case Some(id) => if id == "" then Err(NoCameraFound) else Ok(id)
  }

  lemma LowerFrontLabel(front: string)
    requires front == "Front Camera"
    ensures Lower(front) == "front camera"
  {
  }

  /** A string in which the first two characters of `p` never appear side by side does not contain `p`. */
  lemma {:induction false} AbsentPair(s: string, p: string)
    requires |p| >= 2
    requires forall i :: 0 <= i < |s| - 1 ==> s[i] != p[0] || s[i + 1] != p[1]
    ensures !Contains(s, p)
    decreases |s|
  {
    if |p| <= |s| {
      assert s[..|p|][0] == s[0] && s[..|p|][1] == s[1];
    }
    if s != [] {
      AbsentPair(s[1..], p);
    }
  }

  /** "front camera" has no "b" at all, and no "r" directly followed by "e". */
  lemma FrontCameraPairs(lf: string)
    requires lf == "front camera"
    ensures forall i :: 0 <= i < |lf| - 1 ==> lf[i] != 'b' && (lf[i] != 'r' || lf[i + 1] != 'e')
  {
  }

  /** "Front Camera" mentions neither "back" nor "rear" once lower-cased. */
  lemma {:induction false} FrontLabelIsNotRear(front: string)
    requires front == "Front Camera"
    ensures !IsRearLabel(front)
  {
    LowerFrontLabel(front);
    var lf := Lower(front);
    FrontCameraPairs(lf);
    AbsentPair(lf, "back");
    AbsentPair(lf, "rear");
  }

  /** "Back Camera" mentions "back" once lower-cased. */
  lemma {:induction false} BackLabelIsRear(back: string)
    requires back == "Back Camera"
    ensures IsRearLabel(back)
  {
  }

  /** Front camera listed first, back camera second: the back camera's id is chosen. */
  lemma {:induction false} PrefersBackCamera(front: string, back: string)
    requires front == "Front Camera" && back == "Back Camera"
    ensures CameraId(Some([Device("1", front), Device("2", back)])) == Ok("2")
  {
    FrontLabelIsNotRear(front);
    BackLabelIsRear(back);
    var devices := [Device("1", front), Device("2", back)];
    assert devices[0].labelText == front && devices[1].labelText == back;
    assert forall j :: 0 <= j < 1 ==> !IsRearLabel(devices[j].labelText);
  }
}
