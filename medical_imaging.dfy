/**
 * The 3D imaging viewer's controls: the zoom buttons and the slice buttons
 * with their clamps, the slice count looked up for the selected scan, scan
 * selection and resetView. The canvas drawing, the animation loop and the
 * click-to-rotate handler are not modelled.
 */
module MedicalImaging {
  import opened Wrappers

  datatype Scan = Scan(id: string, name: string, date: string, slices: int)

  const AvailableScans: seq<Scan> := [
    Scan("chest-ct", "Chest CT Scan", "2024-06-20", 50),
    Scan("brain-mri", "Brain MRI", "2024-06-15", 80),
    Scan("knee-xray", "Knee X-Ray", "2024-06-10", 1),
    Scan("cardiac-ct", "Cardiac CT", "2024-06-05", 120)
  ]

  const MinZoom := 25
  const MaxZoom := 300
  const ZoomStep := 25
  const DefaultSlices := 50

  datatype Rotation = Rotation(x: real, y: real, z: real)

  datatype ViewState = ViewState(
    isRotating: bool,
    zoom: int,
    rotation: Rotation,
    selectedScan: string,
    currentSlice: int)

  const Initial := ViewState(false, 100, Rotation(0.0, 0.0, 0.0), "chest-ct", 25)

  /** `find(s => s.id === id)?.slices`: the slice count of the first scan with that id. */
  function FindSlices(scans: seq<Scan>, id: string): (r: Option<int>)
    ensures r.Some? <==> exists i :: 0 <= i < |scans| && scans[i].id == id
    ensures r.Some? ==> exists i :: 0 <= i < |scans| && scans[i].id == id && r.value == scans[i].slices
                                  && forall j :: 0 <= j < i ==> scans[j].id != id
  {
    if |scans| == 0 then None
    else if scans[0].id == id then Some(scans[0].slices)
    else
      var r := FindSlices(scans[1..], id);
      assert forall i :: 1 <= i < |scans| ==> scans[i] == scans[1..][i - 1];
      if r.Some? then
        var k :| 0 <= k < |scans[1..]| && scans[1..][k].id == id && r.value == scans[1..][k].slices
                 && forall j :: 0 <= j < k ==> scans[1..][j].id != id;
        assert scans[k + 1].id == id && r.value == scans[k + 1].slices;
        assert forall j :: 0 <= j < k + 1 ==> scans[j].id != id;
        r
      else r
  }

  /** `find(...)?.slices || 50`: a missing scan or a zero count falls back to 50. */
  function SliceCount(scans: seq<Scan>, id: string): int {
    match FindSlices(scans, id)
    case Some(n) => if n != 0 then n else DefaultSlices
    case None => DefaultSlices
  }

  function Min(a: int, b: int): int { if a <= b then a else b }
  function Max(a: int, b: int): int { if a >= b then a else b }

  /** The zoom-in button. */
  function ZoomIn(zoom: int): int { Min(MaxZoom, zoom + ZoomStep) }

  /** The zoom-out button. */
  function ZoomOut(zoom: int): int { Max(MinZoom, zoom - ZoomStep) }

  /** The slice-back button. */
  function SliceBack(slice: int): int { Max(1, slice - 1) }

  /** The slice-forward button, capped at the selected scan's slice count. */
  function SliceForward(slice: int, slices: int): int { Min(slices, slice + 1) }

  /** resetView: rotation, zoom and slice go back to their initial values; the
      slice is not clamped to the scan. */
  function ResetView(st: ViewState): ViewState {
    st.(rotation := Rotation(0.0, 0.0, 0.0), zoom := 100, currentSlice := 25)
  }

  /** A scan button: only the selection changes. */
  function SelectScan(st: ViewState, id: string): ViewState {
    st.(selectedScan := id)
  }

  /** The zoom buttons raise and lower by 25 up to the bounds, and keep a zoom in [25, 300] there. */
  lemma ZoomButtonsClamp(zoom: int)
    ensures ZoomIn(zoom) <= MaxZoom && ZoomOut(zoom) >= MinZoom
    ensures ZoomIn(zoom) == MaxZoom || ZoomIn(zoom) == zoom + ZoomStep
    ensures ZoomOut(zoom) == MinZoom || ZoomOut(zoom) == zoom - ZoomStep
    ensures MinZoom <= zoom <= MaxZoom ==>
      MinZoom <= ZoomIn(zoom) <= MaxZoom && MinZoom <= ZoomOut(zoom) <= MaxZoom
  {
  }

  /** Zoom stays in [25, 300] under any sequence of zoom-button presses;
      true means zoom in. */
  function ZoomAfter(zoom: int, presses: seq<bool>): int
    decreases |presses|
  {
    if |presses| == 0 then zoom
    else ZoomAfter(if presses[0] then ZoomIn(zoom) else ZoomOut(zoom), presses[1..])
  }

  lemma {:induction false} ZoomAfterInRange(zoom: int, presses: seq<bool>)
    requires MinZoom <= zoom <= MaxZoom
    ensures MinZoom <= ZoomAfter(zoom, presses) <= MaxZoom
    decreases |presses|
  {
    if |presses| > 0 {
      ZoomButtonsClamp(zoom);
      ZoomAfterInRange(if presses[0] then ZoomIn(zoom) else ZoomOut(zoom), presses[1..]);
    }
  }

  /** A slice in [1, slices] stays there under both slice buttons, and moves by at most one. */
  lemma SliceButtonsClamp(slice: int, slices: int)
    requires 1 <= slice <= slices
    ensures 1 <= SliceBack(slice) <= slices && 1 <= SliceForward(slice, slices) <= slices
    ensures slice - 1 <= SliceBack(slice) <= slice && slice <= SliceForward(slice, slices) <= slice + 1
  {
  }

  /** The four offered scans' slice counts. */
  lemma OfferedSliceCounts()
    ensures SliceCount(AvailableScans, "chest-ct") == 50
    ensures SliceCount(AvailableScans, "brain-mri") == 80
    ensures SliceCount(AvailableScans, "knee-xray") == 1
    ensures SliceCount(AvailableScans, "cardiac-ct") == 120
    ensures SliceCount(AvailableScans, "pet-scan") == DefaultSlices
  {
    assert AvailableScans[0].id == "chest-ct";
    assert AvailableScans[1..][0].id == "brain-mri";
    assert AvailableScans[1..][1..][0].id == "knee-xray";
    assert AvailableScans[1..][1..][1..][0].id == "cardiac-ct";
    assert AvailableScans[1..][1..][1..][1..] == [];
  }

  /** A slice count is always at least one when every scan has one. */
  lemma SliceCountPositive(scans: seq<Scan>, id: string)
    requires forall i :: 0 <= i < |scans| ==> scans[i].slices >= 1
    ensures SliceCount(scans, id) >= 1
  {
  }

  /** Reset puts rotation, zoom and slice back to their initial values and keeps the scan. */
  lemma ResetViewRestores(st: ViewState)
    ensures ResetView(st) == Initial.(isRotating := st.isRotating, selectedScan := st.selectedScan)
  {
  }

  /** With the knee X-ray selected, reset leaves the slice at 25 of its single slice. */
  lemma ResetViewBeyondKneeSlices(st: ViewState)
    requires st.selectedScan == "knee-xray"
    ensures ResetView(st).currentSlice > SliceCount(AvailableScans, ResetView(st).selectedScan)
  {
    OfferedSliceCounts();
  }

  /** Selecting a scan keeps the current slice, even past the new scan's count. */
  lemma SelectScanKeepsSlice(st: ViewState, id: string)
    ensures SelectScan(st, id).currentSlice == st.currentSlice
    ensures SelectScan(st, id) == st.(selectedScan := id)
  {
  }

  /** The viewer's state. */
  class ImagingView {
    /** The component's fixed scan list. */
    const scans: seq<Scan>
    var isRotating: bool
    var zoom: int
    var rotation: Rotation
    var selectedScan: string
    var currentSlice: int

    function State(): ViewState
      reads this
    {
      ViewState(isRotating, zoom, rotation, selectedScan, currentSlice)
    }

    constructor ()
      ensures scans == AvailableScans && State() == Initial
    {
      scans := AvailableScans;
      isRotating := false;
      zoom := 100;
      rotation := Rotation(0.0, 0.0, 0.0);
      selectedScan := "chest-ct";
      currentSlice := 25;
    }

    method OnZoomIn()
      modifies this
      ensures State() == old(State()).(zoom := ZoomIn(old(zoom)))
    {
      zoom := Min(MaxZoom, zoom + ZoomStep);
    }

    method OnZoomOut()
      modifies this
      ensures State() == old(State()).(zoom := ZoomOut(old(zoom)))
    {
      zoom := Max(MinZoom, zoom - ZoomStep);
    }

    method OnSliceBack()
      modifies this
      ensures State() == old(State()).(currentSlice := SliceBack(old(currentSlice)))
    {
      currentSlice := Max(1, currentSlice - 1);
    }

    method OnSliceForward()
      modifies this
      ensures State() == old(State()).(currentSlice := SliceForward(old(currentSlice), SliceCount(scans, old(selectedScan))))
    {
      currentSlice := Min(SliceCount(scans, selectedScan), currentSlice + 1);
    }

    method OnResetView()
      modifies this
      ensures State() == ResetView(old(State()))
    {
      rotation := Rotation(0.0, 0.0, 0.0);
      zoom := 100;
      currentSlice := 25;
    }

    method OnSelectScan(id: string)
      modifies this
      ensures State() == SelectScan(old(State()), id)
    {
      selectedScan := id;
    }

    /** The play/pause buttons. */
    method OnToggleRotation()
      modifies this
      ensures State() == old(State()).(isRotating := !old(isRotating))
    {
      isRotating := !isRotating;
    }
  }
}
