/**
 * The filter resource lifecycle of the webcam controller as pure functions
 * over its three pieces of state: the map of filter outputs, the map of
 * working device buffers and the two Sobel gradient buffers.
 */
module ControllerSpec {

  import opened FilterTypes
  import opened Mats

  /** Names of the shared and per-filter working device buffers. */
  datatype GpuMatType = CamFrame | GrayFrame | GrayFrameRGB | SobelFrame

  /**
   * The resources a controller owns. The key set of `filteredFrames` is the
   * set of active filters.
   */
  datatype Resources = Resources(
    filteredFrames: map<FilterType, Mat>,
    gpuMatFrames: map<GpuMatType, Mat>,
    gradXGpu: Mat,
    gradYGpu: Mat)

  /** State of a freshly constructed controller. */
  const NoResources := Resources(map[], map[], EmptyMat, EmptyMat)

  /** The working buffers that belong to one kind of filter. */
  function OwnBuffers(k: FilterType): (s: set<GpuMatType>)
    ensures CamFrame !in s
  {
    match k
    case None => {}
    case Grayscale => {GrayFrame, GrayFrameRGB}
    case Sobel => {SobelFrame}
  }

  /**
   * Resources exist exactly for the active filters: the shared camera staging
   * buffer iff some filter is active, each kind's own buffers (and, for Sobel,
   * the gradients) iff that kind is active, and every stored device buffer is
   * allocated.
   */
  ghost predicate Valid(r: Resources)
  {
    && (CamFrame in r.gpuMatFrames <==> r.filteredFrames != map[])
    && (GrayFrame in r.gpuMatFrames <==> Grayscale in r.filteredFrames)
    && (GrayFrameRGB in r.gpuMatFrames <==> Grayscale in r.filteredFrames)
    && (SobelFrame in r.gpuMatFrames <==> Sobel in r.filteredFrames)
    && (r.gradXGpu.Mat? <==> Sobel in r.filteredFrames)
    && (r.gradYGpu.Mat? <==> Sobel in r.filteredFrames)
    && Allocated(r.gpuMatFrames, CamFrame)
    && Allocated(r.gpuMatFrames, GrayFrame)
    && Allocated(r.gpuMatFrames, GrayFrameRGB)
    && Allocated(r.gpuMatFrames, SobelFrame)
  }

  /** A stored working buffer has device memory behind it. */
  predicate Allocated(gpu: map<GpuMatType, Mat>, g: GpuMatType)
  {
    g in gpu ==> gpu[g].Mat?
  }

  // ---------------------------------------------------------------------
  // setActiveFilter
  // ---------------------------------------------------------------------

  /** `setActiveFilter(k, true)` with a camera frame of shape `cam`. */
  function Activate(r: Resources, cam: Shape, k: FilterType): (r': Resources)
    ensures k in r'.filteredFrames
    ensures k in r.filteredFrames ==> r' == r
  {
    if k in r.filteredFrames then r
    else
      // the staging buffer is (re)created when this is the first active filter
      var gpu := if r.filteredFrames == map[] then r.gpuMatFrames[CamFrame := Allocate(cam)] else r.gpuMatFrames;
      Resources(r.filteredFrames[k := Allocate(cam)], AllocateOwnBuffers(gpu, cam, k),
                if k == Sobel then Create(r.gradXGpu, cam) else r.gradXGpu,
                if k == Sobel then Create(r.gradYGpu, cam) else r.gradYGpu)
  }

  /** The kind-specific part of activation: reset and size the kind's own working buffers. */
  function AllocateOwnBuffers(gpu: map<GpuMatType, Mat>, cam: Shape, k: FilterType): (gpu': map<GpuMatType, Mat>)
    ensures forall g :: g in OwnBuffers(k) ==> g in gpu' && gpu'[g].Mat?
  {
    match k
    case None => gpu
    case Grayscale => gpu[GrayFrame := Allocate(Shape(cam.width, cam.height, CV_8UC1))][GrayFrameRGB := Allocate(cam)]
    case Sobel => gpu[SobelFrame := Allocate(cam)]
  }

  /** `setActiveFilter(k, false)`. */
  function Deactivate(r: Resources, k: FilterType): (r': Resources)
    ensures k !in r'.filteredFrames
    ensures k !in r.filteredFrames ==> r' == r
  {
    if k !in r.filteredFrames then r
    else
      var filtered := r.filteredFrames - {k};
      var gpu := if filtered == map[] then r.gpuMatFrames - {CamFrame} else r.gpuMatFrames;
      Resources(filtered, gpu - OwnBuffers(k),
                if k == Sobel then EmptyMat else r.gradXGpu,
                if k == Sobel then EmptyMat else r.gradYGpu)
  }

  /** `setActiveFilter(k, active)`: afterwards `k` is active iff `active`, and no other filter changes state. */
  function SetActive(r: Resources, cam: Shape, k: FilterType, active: bool): (r': Resources)
    ensures k in r'.filteredFrames <==> active
    ensures forall j :: j != k ==> (j in r'.filteredFrames <==> j in r.filteredFrames)
  {
    if active then Activate(r, cam, k) else Deactivate(r, k)
  }

  /** One call of `setActiveFilter`, with the camera frame shape at the time of the call. */
  datatype Call = Call(filter: FilterType, active: bool, cam: Shape)

  /**
   * Whether filter `k` is on after `calls`: the flag of the last call for `k`,
   * or `initially` when no call names it.
   */
  function LastSetting(calls: seq<Call>, k: FilterType, initially: bool): bool
    decreases |calls|
  {
    if calls == [] then initially
    else if calls[|calls| - 1].filter == k then calls[|calls| - 1].active
    else LastSetting(calls[..|calls| - 1], k, initially)
  }

  /**
   * The state after a sequence of `setActiveFilter` calls: each filter is
   * active iff the last call naming it switched it on.
   */
  function Replay(r: Resources, calls: seq<Call>): (r': Resources)
    ensures forall k :: k in r'.filteredFrames <==> LastSetting(calls, k, k in r.filteredFrames)
    decreases |calls|
  {
    if calls == [] then r
    else
      var c := calls[|calls| - 1];
      SetActive(Replay(r, calls[..|calls| - 1]), c.cam, c.filter, c.active)
  }

  /** The staging buffer is created exactly when the map of outputs grows from empty to one entry. */
  lemma FirstActivation(m: map<FilterType, Mat>, k: FilterType, x: Mat)
    requires k !in m
    ensures |m[k := x]| == 1 <==> m == map[]
  {
    var m' := m[k := x];
    if m != map[] {
      var j :| j in m;
      assert {j, k} <= m'.Keys;
      assert |{j, k}| == 2;
      SubsetCard({j, k}, m'.Keys);
    } else {
      assert m'.Keys == {k};
    }
  }

  lemma SubsetCard<T>(a: set<T>, b: set<T>)
    requires a <= b
    ensures |a| <= |b|
  {
    assert b == a + (b - a);
  }

  lemma ActivatePreservesValid(r: Resources, cam: Shape, k: FilterType)
    requires Valid(r)
    ensures Valid(Activate(r, cam, k))
  {
  }

  lemma DeactivatePreservesValid(r: Resources, k: FilterType)
    requires Valid(r)
    ensures Valid(Deactivate(r, k))
  {
  }

  /**
   * Starting from a freshly constructed controller, after any sequence of
   * `setActiveFilter` calls the staging buffer exists iff some filter is
   * active, and each kind's buffers exist iff that kind is active.
   */
  lemma {:induction false} ReplayIsValid(calls: seq<Call>)
    ensures Valid(Replay(NoResources, calls))
    decreases |calls|
  {
    if calls != [] {
      var c := calls[|calls| - 1];
      var prev := Replay(NoResources, calls[..|calls| - 1]);
      ReplayIsValid(calls[..|calls| - 1]);
      if c.active {
        ActivatePreservesValid(prev, c.cam, c.filter);
      } else {
        DeactivatePreservesValid(prev, c.filter);
      }
    }
  }

  /** Repeating a call changes nothing: each direction is guarded by a membership test. */
  lemma SetActiveIsIdempotent(r: Resources, cam: Shape, cam': Shape, k: FilterType, active: bool)
    ensures SetActive(SetActive(r, cam, k, active), cam', k, active) == SetActive(r, cam, k, active)
  {
  }

  /** Activating an active filter returns before any allocation; deactivating an inactive one erases nothing. */
  lemma RedundantCallIsNoOp(r: Resources, cam: Shape, k: FilterType, active: bool)
    requires active <==> k in r.filteredFrames
    ensures SetActive(r, cam, k, active) == r
  {
  }

  /**
   * Activating an inactive filter adds exactly one output, for that filter,
   * sized and typed like the camera frame; the other outputs are unchanged.
   */
  lemma ActivateAddsOneOutput(r: Resources, cam: Shape, k: FilterType)
    requires k !in r.filteredFrames
    ensures var r' := Activate(r, cam, k);
      && r'.filteredFrames.Keys == r.filteredFrames.Keys + {k}
      && |r'.filteredFrames| == |r.filteredFrames| + 1
      && r'.filteredFrames[k] == Allocate(cam)
      && (forall j :: j in r.filteredFrames ==> r'.filteredFrames[j] == r.filteredFrames[j])
  {
    var filtered := r.filteredFrames[k := Allocate(cam)];
    assert Activate(r, cam, k).filteredFrames == filtered by {
      match k
      case None =>
      case Grayscale =>
      case Sobel =>
    }
    assert filtered.Keys == r.filteredFrames.Keys + {k};
  }

  /**
   * Activating an inactive filter adds its own working buffers, and the
   * staging buffer when it is the first active filter.
   */
  lemma ActivateAddsOwnBuffers(r: Resources, cam: Shape, k: FilterType)
    requires k !in r.filteredFrames
    ensures Activate(r, cam, k).gpuMatFrames.Keys
         == r.gpuMatFrames.Keys + OwnBuffers(k) + (if r.filteredFrames == map[] then {CamFrame} else {})
  {
    var gpu := if r.filteredFrames == map[] then r.gpuMatFrames[CamFrame := Allocate(cam)] else r.gpuMatFrames;
    assert Activate(r, cam, k).gpuMatFrames == AllocateOwnBuffers(gpu, cam, k);
    AllocateOwnBuffersFrame(gpu, cam, k);
    assert gpu.Keys == r.gpuMatFrames.Keys + (if r.filteredFrames == map[] then {CamFrame} else {});
  }

  /** Activating an inactive filter leaves every working buffer already present as it was. */
  lemma ActivateKeepsBuffers(r: Resources, cam: Shape, k: FilterType)
    requires Valid(r) && k !in r.filteredFrames
    ensures forall g :: g in r.gpuMatFrames ==> Activate(r, cam, k).gpuMatFrames[g] == r.gpuMatFrames[g]
  {
    var gpu := if r.filteredFrames == map[] then r.gpuMatFrames[CamFrame := Allocate(cam)] else r.gpuMatFrames;
    var gpu' := Activate(r, cam, k).gpuMatFrames;
    assert gpu' == AllocateOwnBuffers(gpu, cam, k);
    AllocateOwnBuffersFrame(gpu, cam, k);
    forall g | g in r.gpuMatFrames
      ensures gpu'[g] == r.gpuMatFrames[g]
    {
      assert g !in OwnBuffers(k) by {
        match k
        case None =>
        case Grayscale =>
        case Sobel =>
      }
      assert g == CamFrame ==> r.filteredFrames != map[];
    }
  }

  lemma AllocateOwnBuffersFrame(gpu: map<GpuMatType, Mat>, cam: Shape, k: FilterType)
    ensures AllocateOwnBuffers(gpu, cam, k).Keys == gpu.Keys + OwnBuffers(k)
    ensures forall g :: g in gpu && g !in OwnBuffers(k) ==> AllocateOwnBuffers(gpu, cam, k)[g] == gpu[g]
  {
  }

  /**
   * The buffers a newly activated filter allocates: the grayscale plane is
   * CV_8UC1, every other buffer (the staging buffer, the RGB gray frame, the
   * Sobel frame and both gradients) copies the camera frame's size and type.
   */
  lemma ActivateAllocatedShapes(r: Resources, cam: Shape, k: FilterType)
    requires Valid(r) && k !in r.filteredFrames
    ensures var r' := Activate(r, cam, k);
      && (r.filteredFrames == map[] ==> r'.gpuMatFrames[CamFrame] == Allocate(cam))
      && (k == Grayscale ==>
            && r'.gpuMatFrames[GrayFrame] == Allocate(Shape(cam.width, cam.height, CV_8UC1))
            && r'.gpuMatFrames[GrayFrameRGB] == Allocate(cam))
      && (k == Sobel ==>
            && r'.gpuMatFrames[SobelFrame] == Allocate(cam)
            && r'.gradXGpu == Allocate(cam) && r'.gradYGpu == Allocate(cam))
      && (k != Sobel ==> r'.gradXGpu == r.gradXGpu && r'.gradYGpu == r.gradYGpu)
  {
  }

  /**
   * Deactivating an active filter removes only its output; the other outputs
   * are unchanged.
   */
  lemma DeactivateRemovesOneOutput(r: Resources, k: FilterType)
    requires k in r.filteredFrames
    ensures var r' := Deactivate(r, k);
      && r'.filteredFrames.Keys == r.filteredFrames.Keys - {k}
      && |r'.filteredFrames| == |r.filteredFrames| - 1
      && (forall j :: j in r'.filteredFrames ==> r'.filteredFrames[j] == r.filteredFrames[j])
  {
    assert Deactivate(r, k).filteredFrames == r.filteredFrames - {k} by {
      match k
      case None =>
      case Grayscale =>
      case Sobel =>
    }
  }

  /**
   * Deactivating an active filter frees only its own working buffers, and the
   * staging buffer when it was the last active filter; the gradients are
   * released exactly when the filter is Sobel. Remaining buffers are unchanged.
   */
  lemma DeactivateFreesOwnBuffers(r: Resources, k: FilterType)
    requires Valid(r) && k in r.filteredFrames
    ensures var r' := Deactivate(r, k);
      && r'.gpuMatFrames.Keys == r.gpuMatFrames.Keys - OwnBuffers(k) - (if r'.filteredFrames == map[] then {CamFrame} else {})
      && (forall g :: g in r'.gpuMatFrames ==> r'.gpuMatFrames[g] == r.gpuMatFrames[g])
      && (k == Sobel ==> r'.gradXGpu == EmptyMat && r'.gradYGpu == EmptyMat)
      && (k != Sobel ==> r'.gradXGpu == r.gradXGpu && r'.gradYGpu == r.gradYGpu)
  {
    DeactivateRemovesOneOutput(r, k);
    match k
    case None =>
    case Grayscale =>
    case Sobel =>
  }

  /** Activating an inactive filter and deactivating it again restores the state exactly. */
  lemma DeactivateUndoesActivate(r: Resources, cam: Shape, k: FilterType)
    requires Valid(r) && k !in r.filteredFrames
    ensures Deactivate(Activate(r, cam, k), k) == r
  {
    var r1 := Activate(r, cam, k);
    var r2 := Deactivate(r1, k);
    assert r1.filteredFrames == r.filteredFrames[k := Allocate(cam)];
    assert r2.filteredFrames == r.filteredFrames;
    var gpu := if r.filteredFrames == map[] then r.gpuMatFrames[CamFrame := Allocate(cam)] else r.gpuMatFrames;
    assert r1.gpuMatFrames == AllocateOwnBuffers(gpu, cam, k);
    AllocateOwnBuffersFrame(gpu, cam, k);
    var gpu1 := if r.filteredFrames == map[] then r1.gpuMatFrames - {CamFrame} else r1.gpuMatFrames;
    assert r2.gpuMatFrames == gpu1 - OwnBuffers(k);
    forall g
      ensures g in r2.gpuMatFrames <==> g in r.gpuMatFrames
      ensures g in r.gpuMatFrames ==> r2.gpuMatFrames[g] == r.gpuMatFrames[g]
    {
      if g in r.gpuMatFrames {
        assert g !in OwnBuffers(k) by {
          match k
          case None =>
          case Grayscale =>
          case Sobel =>
        }
      }
    }
    assert r2.gpuMatFrames == r.gpuMatFrames;
  }

  /** Activating two different filters gives the same state in either order. */
  lemma ActivationsCommute(r: Resources, cam: Shape, a: FilterType, b: FilterType)
    ensures Activate(Activate(r, cam, a), cam, b) == Activate(Activate(r, cam, b), cam, a)
  {
    if a == b {
    } else if a in r.filteredFrames {
      assert a in Activate(r, cam, b).filteredFrames;
    } else if b in r.filteredFrames {
      assert b in Activate(r, cam, a).filteredFrames;
    } else {
      FreshActivationsCommute(r, cam, a, b);
    }
  }

  lemma FreshActivationsCommute(r: Resources, cam: Shape, a: FilterType, b: FilterType)
    requires a != b && a !in r.filteredFrames && b !in r.filteredFrames
    ensures Activate(Activate(r, cam, a), cam, b) == Activate(Activate(r, cam, b), cam, a)
  {
    var x := Allocate(cam);
    var ra := Activate(r, cam, a);
    var rb := Activate(r, cam, b);
    assert ra.filteredFrames == r.filteredFrames[a := x];
    assert rb.filteredFrames == r.filteredFrames[b := x];
    var rab := Activate(ra, cam, b);
    var rba := Activate(rb, cam, a);
    assert rab.filteredFrames == rba.filteredFrames by {
      assert rab.filteredFrames == r.filteredFrames[a := x][b := x];
      assert rba.filteredFrames == r.filteredFrames[b := x][a := x];
    }
    var gpu := if r.filteredFrames == map[] then r.gpuMatFrames[CamFrame := x] else r.gpuMatFrames;
    assert rab.gpuMatFrames == AllocateOwnBuffers(AllocateOwnBuffers(gpu, cam, a), cam, b);
    assert rba.gpuMatFrames == AllocateOwnBuffers(AllocateOwnBuffers(gpu, cam, b), cam, a);
    OwnBuffersCommute(gpu, cam, a, b);
  }

  lemma OwnBuffersCommute(gpu: map<GpuMatType, Mat>, cam: Shape, a: FilterType, b: FilterType)
    ensures AllocateOwnBuffers(AllocateOwnBuffers(gpu, cam, a), cam, b)
         == AllocateOwnBuffers(AllocateOwnBuffers(gpu, cam, b), cam, a)
  {
    var ab := AllocateOwnBuffers(AllocateOwnBuffers(gpu, cam, a), cam, b);
    var ba := AllocateOwnBuffers(AllocateOwnBuffers(gpu, cam, b), cam, a);
    assert forall g :: g in ab <==> g in ba;
    assert forall g :: g in ab ==> ab[g] == ba[g];
  }
}
