/**
 * The webcam controller object: its filter outputs, working device buffers
 * and gradients, updated in place by `SetActiveFilter` and by one iteration of
 * the capture loop. Each method is proved against the functions of
 * `ControllerSpec` and `CaptureCycleSpec`, whose properties are proved there.
 */
module WebcamControl {

  import opened FilterTypes
  import opened Mats
  import opened ControllerSpec
  import opened CaptureCycleSpec

  class WebcamController {
    /** Per-filter flags and display names, initialised by the constructor. */
    var activeFilters: map<FilterType, bool>
    var activeFiltersStrings: map<FilterType, string>

    var videoCaptureCanBeStarted: bool
    var currentCamFrame: Mat

    var filteredFrames: map<FilterType, Mat>
    var gpuMatFrames: map<GpuMatType, Mat>
    var gradXGpu: Mat
    var gradYGpu: Mat

    /** The filter resources as a value. */
    function State(): Resources
      reads this
    {
      Resources(filteredFrames, gpuMatFrames, gradXGpu, gradYGpu)
    }

    ghost predicate Valid()
      reads this
    {
      ControllerSpec.Valid(State())
    }

    /**
     * Builds the controller and initialises capture. `cameraOpened` and
     * `firstFrame` are what the camera reported: whether it could be opened,
     * and the first frame read from it (`EmptyMat` when none arrived).
     */
    constructor (cameraOpened: bool, firstFrame: Mat)
      ensures Valid() && State() == NoResources
      ensures activeFilters == map[FilterType.None := false, Grayscale := false, Sobel := false]
      ensures activeFiltersStrings == map[FilterType.None := "None", Grayscale := "Grayscale", Sobel := "Sobel"]
      ensures currentCamFrame == (if cameraOpened then firstFrame else EmptyMat)
      ensures videoCaptureCanBeStarted <==> cameraOpened && !IsEmpty(firstFrame)
    {
      activeFilters := map[FilterType.None := false, Grayscale := false, Sobel := false];
      activeFiltersStrings := map[FilterType.None := "None", Grayscale := "Grayscale", Sobel := "Sobel"];
      videoCaptureCanBeStarted := false;
      currentCamFrame := EmptyMat;
      filteredFrames := map[];
      gpuMatFrames := map[];
      gradXGpu := EmptyMat;
      gradYGpu := EmptyMat;
      new;
      InitVideoCapture(cameraOpened, firstFrame);
    }

    /**
     * Reads the first frame; capture may be started only when the camera
     * opened and delivered a non-empty frame.
     */
    method InitVideoCapture(cameraOpened: bool, firstFrame: Mat)
      modifies this`currentCamFrame, this`videoCaptureCanBeStarted
      ensures currentCamFrame == (if cameraOpened then firstFrame else old(currentCamFrame))
      ensures videoCaptureCanBeStarted == (if cameraOpened && !IsEmpty(firstFrame) then true else old(videoCaptureCanBeStarted))
    {
      if !cameraOpened {
        return;
      }
      currentCamFrame := firstFrame;
      if IsEmpty(currentCamFrame) {
        return;
      }
      videoCaptureCanBeStarted := true;
    }

    /**
     * Turns a filter on or off, allocating or freeing its output and working
     * buffers, and the shared staging buffer for the first and last filter.
     */
    method SetActiveFilter(filterType: FilterType, active: bool)
      requires Valid()
      modifies this`filteredFrames, this`gpuMatFrames, this`gradXGpu, this`gradYGpu
      ensures Valid()
      ensures State() == SetActive(old(State()), ShapeOf(currentCamFrame), filterType, active)
    {
      if active {
        EnableFilter(filterType);
      } else {
        DisableFilter(filterType);
      }
    }

    /** The `active` branch of `SetActiveFilter`. */
    method EnableFilter(filterType: FilterType)
      requires Valid()
      modifies this`filteredFrames, this`gpuMatFrames, this`gradXGpu, this`gradYGpu
      ensures Valid()
      ensures State() == Activate(old(State()), ShapeOf(currentCamFrame), filterType)
    {
      ghost var r := State();
      var cam := ShapeOf(currentCamFrame);
      if filterType in filteredFrames {
        return;
      }
      filteredFrames := filteredFrames[filterType := Allocate(cam)];
      var filteredFramesSize := |filteredFrames|;
      FirstActivation(r.filteredFrames, filterType, Allocate(cam));
      if filteredFramesSize == 1 {
        gpuMatFrames := gpuMatFrames[CamFrame := EmptyMat];
        gpuMatFrames := gpuMatFrames[CamFrame := Create(gpuMatFrames[CamFrame], cam)];
      }
      assert gpuMatFrames == if r.filteredFrames == map[] then r.gpuMatFrames[CamFrame := Allocate(cam)] else r.gpuMatFrames;
      CreateOwnBuffers(filterType, cam);
      assert State() == Activate(r, cam, filterType);
      ActivatePreservesValid(r, cam, filterType);
    }

    /** The inactive branch of `SetActiveFilter`. */
    method DisableFilter(filterType: FilterType)
      requires Valid()
      modifies this`filteredFrames, this`gpuMatFrames, this`gradXGpu, this`gradYGpu
      ensures Valid()
      ensures State() == Deactivate(old(State()), filterType)
    {
      ghost var r := State();
      // `erase` reports how many entries it removed
      var erased := if filterType in filteredFrames then 1 else 0;
      filteredFrames := filteredFrames - {filterType};
      if erased != 0 {
        if filteredFrames == map[] {
          gpuMatFrames := gpuMatFrames - {CamFrame};
        }
        ReleaseOwnBuffers(filterType);
      }
      DeactivatePreservesValid(r, filterType);
    }

    /** The kind-specific part of activation: reset and size the kind's own working buffers. */
    method CreateOwnBuffers(filterType: FilterType, cam: Shape)
      modifies this`gpuMatFrames, this`gradXGpu, this`gradYGpu
      ensures gpuMatFrames == AllocateOwnBuffers(old(gpuMatFrames), cam, filterType)
      ensures gradXGpu == if filterType == Sobel then Create(old(gradXGpu), cam) else old(gradXGpu)
      ensures gradYGpu == if filterType == Sobel then Create(old(gradYGpu), cam) else old(gradYGpu)
    {
      match filterType {
        case Grayscale =>
          gpuMatFrames := gpuMatFrames[GrayFrame := EmptyMat][GrayFrameRGB := EmptyMat];
          gpuMatFrames := gpuMatFrames[GrayFrame := Create(gpuMatFrames[GrayFrame], Shape(cam.width, cam.height, CV_8UC1))];
          gpuMatFrames := gpuMatFrames[GrayFrameRGB := Create(gpuMatFrames[GrayFrameRGB], cam)];
        case Sobel =>
          gpuMatFrames := gpuMatFrames[SobelFrame := EmptyMat];
          gpuMatFrames := gpuMatFrames[SobelFrame := Create(gpuMatFrames[SobelFrame], cam)];
          gradXGpu := Create(gradXGpu, cam);
          gradYGpu := Create(gradYGpu, cam);
        case None =>
      }
    }

    /** The kind-specific part of deactivation: free the kind's own working buffers. */
    method ReleaseOwnBuffers(filterType: FilterType)
      modifies this`gpuMatFrames, this`gradXGpu, this`gradYGpu
      ensures gpuMatFrames == old(gpuMatFrames) - OwnBuffers(filterType)
      ensures gradXGpu == if filterType == Sobel then EmptyMat else old(gradXGpu)
      ensures gradYGpu == if filterType == Sobel then EmptyMat else old(gradYGpu)
    {
      match filterType {
        case Grayscale =>
          gpuMatFrames := gpuMatFrames - {GrayFrame};
          gpuMatFrames := gpuMatFrames - {GrayFrameRGB};
        case Sobel =>
          gpuMatFrames := gpuMatFrames - {SobelFrame};
          gradXGpu := EmptyMat;
          gradYGpu := EmptyMat;
        case None =>
      }
    }

    /**
     * Looks up a filter's output. When the filter is active the result points
     * at its stored output; otherwise the caller's `mat` comes back unchanged.
     */
    method GetFilteredFrame(filterType: FilterType, mat: Mat) returns (found: bool, mat': Mat)
      ensures found <==> filterType in filteredFrames
      ensures found ==> mat' == filteredFrames[filterType]
      ensures !found ==> mat' == mat
    {
      if filterType in filteredFrames {
        mat' := filteredFrames[filterType];
        return true, mat';
      }
      return false, mat;
    }

    method GenerateCameraFrame()
      requires Valid() && FilterType.None in filteredFrames
      modifies this`filteredFrames
      ensures State() == CaptureCycleSpec.GenerateCameraFrame(old(State()))
    {
      filteredFrames := filteredFrames[FilterType.None := gpuMatFrames[CamFrame]];
    }

    method GenerateGrayscaleRGBFrame(npp: Kernel -> int)
      requires Valid() && Grayscale in filteredFrames
      modifies this`filteredFrames, this`gpuMatFrames
      ensures State() == CaptureCycleSpec.GenerateGrayscaleRGBFrame(old(State()), npp)
    {
      var camFrameGpuMat := gpuMatFrames[CamFrame];
      var grayFrameGpuMat := gpuMatFrames[GrayFrame];
      var status := npp(RgbToGrayKernel);
      if status != NPP_SUCCESS {
        return;
      }
      grayFrameGpuMat := WriteInto(grayFrameGpuMat, RgbToGray(camFrameGpuMat.pixels));
      gpuMatFrames := gpuMatFrames[GrayFrame := grayFrameGpuMat];
      var grayFrameRGBGpuMat := Mat(Shape(grayFrameGpuMat.shape.width, grayFrameGpuMat.shape.height, CV_8UC3),
                                    GrayToRgb(grayFrameGpuMat.pixels));
      gpuMatFrames := gpuMatFrames[GrayFrameRGB := grayFrameRGBGpuMat];
      filteredFrames := filteredFrames[Grayscale := grayFrameRGBGpuMat];
    }

    method GenerateSobelFilteredFrame(npp: Kernel -> int)
      requires Valid() && Sobel in filteredFrames
      modifies this`filteredFrames, this`gpuMatFrames, this`gradXGpu, this`gradYGpu
      ensures State() == CaptureCycleSpec.GenerateSobelFilteredFrame(old(State()), npp)
    {
      var camFrameGpuMat := gpuMatFrames[CamFrame];
      var status := npp(SobelHorizKernel);
      if status != NPP_SUCCESS {
        return;
      }
      gradXGpu := WriteInto(gradXGpu, SobelHoriz(camFrameGpuMat.pixels));
      status := npp(SobelVertKernel);
      if status != NPP_SUCCESS {
        return;
      }
      gradYGpu := WriteInto(gradYGpu, SobelVert(camFrameGpuMat.pixels));
      status := npp(AddKernel);
      if status != NPP_SUCCESS {
        return;
      }
      var sobelFrameGpuMat := WriteInto(gpuMatFrames[SobelFrame], SaturatedSum(gradXGpu.pixels, gradYGpu.pixels));
      gpuMatFrames := gpuMatFrames[SobelFrame := sobelFrameGpuMat];
      filteredFrames := filteredFrames[Sobel := sobelFrameGpuMat];
    }

    /** The body of the capture loop for one active filter: run that filter's generator. */
    method RunGenerator(filter: FilterType, npp: Kernel -> int)
      requires Valid() && filter in filteredFrames
      modifies this`filteredFrames, this`gpuMatFrames, this`gradXGpu, this`gradYGpu
      ensures State() == RunFilter(old(State()), filter, npp)
    {
      match filter {
        case None => GenerateCameraFrame();
        case Grayscale => GenerateGrayscaleRGBFrame(npp);
        case Sobel => GenerateSobelFilteredFrame(npp);
      }
    }

    /**
     * One iteration of the capture loop: read `frame` from the camera; stop
     * when it is empty; otherwise upload and mirror it when some filter is
     * active, and run the generator of every active filter, in whatever
     * order the map yields them.
     */
    method CaptureIteration(frame: Mat, npp: Kernel -> int) returns (stopped: bool)
      requires Valid()
      modifies this`currentCamFrame, this`filteredFrames, this`gpuMatFrames, this`gradXGpu, this`gradYGpu
      ensures Valid()
      ensures currentCamFrame == frame
      ensures stopped <==> IsEmpty(frame)
      ensures stopped ==> State() == old(State())
      ensures !stopped ==> State() == Cycle(old(State()), frame, npp)
    {
      currentCamFrame := frame;
      if IsEmpty(currentCamFrame) {
        return true;
      }
      if filteredFrames != map[] {
        gpuMatFrames := gpuMatFrames[CamFrame := currentCamFrame];
        var camFrameGpuMat := gpuMatFrames[CamFrame];
        gpuMatFrames := gpuMatFrames[CamFrame := Mat(camFrameGpuMat.shape, FlippedHorizontally(camFrameGpuMat.pixels))];
      }
      ghost var uploaded := State();
      assert uploaded == Upload(old(State()), frame);
      var pending := filteredFrames.Keys;
      while pending != {}
        invariant pending <= uploaded.filteredFrames.Keys
        invariant State() == RunSome(uploaded, uploaded.filteredFrames.Keys - pending, npp)
        invariant currentCamFrame == frame
        decreases pending
      {
        var filter :| filter in pending;
        RunSomeStep(uploaded, uploaded.filteredFrames.Keys - pending, filter, npp);
        RunGenerator(filter, npp);
        assert (uploaded.filteredFrames.Keys - pending) + {filter} == uploaded.filteredFrames.Keys - (pending - {filter});
        pending := pending - {filter};
      }
      assert uploaded.filteredFrames.Keys - pending == old(State()).filteredFrames.Keys;
      return false;
    }
  }
}
