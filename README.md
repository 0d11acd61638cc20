# Webcam filter controller and view events, modelled in Dafny

This project models the core of a webcam viewer that filters live camera
frames on the GPU. Three parts are modelled:

- **The webcam controller** (`WebcamController.cpp`).
  - It keeps a map from each active filter (None, Grayscale, Sobel) to its
    output frame.
  - It keeps a map of named device buffers: the camera staging buffer and
    each filter's working buffers.
  - It keeps two Sobel gradient buffers.
  - `setActiveFilter` allocates or frees these resources when a filter is
    switched on or off.
  - `getFilteredFrame` looks an output up.
  - One iteration of the capture loop uploads and mirrors the camera frame,
    then runs the generator of every active filter.
- **The view event queue** (`ViewEventQueue.cpp`): the first-in first-out
  inbox through which the view sends intents to the controller.
- **The view event classes**, in both revisions of the repository:
  `src/Events/` and `src/Events/ViewEvents/`. Each carries a fixed type tag
  plus a (filter, on/off) pair or a single flag.

Files:

- `filter_types.dfy` and `view_event_types.dfy`: the two enumerations.
- `mats.dfy`: image buffers. A buffer is either empty or allocated with a
  size and element type. Its contents are recorded as the chain of
  operations that produced them (`Pixels`), never as pixel values.
- `controller_spec.dfy`: the resource lifecycle as pure functions over
  `Resources`. `Activate`, `Deactivate` and `SetActive` model
  `setActiveFilter`, and `Replay` models a sequence of calls.
  - The invariant `Valid` states that resources exist exactly for the
    active filters: the staging buffer iff some filter is active, each
    kind's own buffers iff that kind is active, and the gradients iff Sobel
    is active.
  - The lemmas prove that this invariant holds after any sequence of calls,
    and that repeated calls do nothing.
  - They prove what exactly is allocated and freed, that deactivation undoes
    activation, and that activations commute.
- `capture_cycle_spec.dfy`: one capture iteration as pure functions.
  - Each NPP kernel is opaque. Only the status it reports is known, passed
    in as `npp`.
  - The lemmas prove that each generator touches only its own buffers and
    that the generators commute, so the order in which the loop visits the
    active filters does not matter.
  - They also state each output after an iteration: the freshly computed
    image, or the previous output when a kernel failed.
- `webcam_controller.dfy`: the controller as a class with the source's
  fields. Its methods are proved to produce exactly the states the
  functions above describe.
  - `SetActiveFilter` keeps the source's `size() == 1` test for the first
    activation.
  - `CaptureIteration` runs a loop over the active filters in an
    unspecified order.
- `view_event_queue.dfy`: the queue as a class over a sequence, with the
  pop function and the FIFO lemmas.
- `events.dfy` and `view_events.dfy`: the event classes of the two
  revisions.
  - A C++ base-class part is a constant field `base`, so a type tag cannot
    change after construction.

## Model

Paths are relative to the repository root, `WebcamFilteringWithOpenCVandCUDANPP/src/...`.

| member | source | states |
|---|---|---|
| Mats.ShapeOf | WebcamFilteringWithOpenCVandCUDANPP/src/Webcam/WebcamController.cpp:219 | an allocated buffer reports its own size and type; an empty one reports 0x0 of CV_8UC1 |
| Mats.IsEmpty | WebcamFilteringWithOpenCVandCUDANPP/src/Webcam/WebcamController.cpp:68 | `empty()` holds iff the buffer has no elements: width times height is zero, which includes a never-allocated matrix |
| Mats.Allocate | WebcamFilteringWithOpenCVandCUDANPP/src/Webcam/WebcamController.cpp:219 | a new matrix of a given size and type is allocated, with exactly that shape and undefined contents |
| Mats.Create | WebcamFilteringWithOpenCVandCUDANPP/src/Webcam/WebcamController.cpp:227 | `create` always yields an allocated buffer of the requested shape; it keeps the existing buffer and its contents iff that already has the shape, otherwise contents are undefined |
| Mats.WriteInto | WebcamFilteringWithOpenCVandCUDANPP/src/Webcam/WebcamController.cpp:145-147 | a kernel writing into a device buffer keeps its size and type and replaces its contents |
| ControllerSpec.OwnBuffers | WebcamFilteringWithOpenCVandCUDANPP/src/Webcam/WebcamController.cpp:265-282 | no filter kind owns the shared camera staging buffer |
| ControllerSpec.Activate | WebcamFilteringWithOpenCVandCUDANPP/src/Webcam/WebcamController.cpp:214-256 | `setActiveFilter(k, true)`: afterwards `k` is active; when it already was, nothing changes |
| ControllerSpec.AllocateOwnBuffers | WebcamFilteringWithOpenCVandCUDANPP/src/Webcam/WebcamController.cpp:231-256 | the per-kind switch leaves every buffer of that kind present and allocated |
| ControllerSpec.Deactivate | WebcamFilteringWithOpenCVandCUDANPP/src/Webcam/WebcamController.cpp:258-288 | `setActiveFilter(k, false)`: afterwards `k` is inactive; when it already was, nothing changes |
| ControllerSpec.SetActive | WebcamFilteringWithOpenCVandCUDANPP/src/Webcam/WebcamController.cpp:208-289 | afterwards `k` is active iff the flag asked for it, and every other filter is active iff it was before |
| ControllerSpec.Replay | WebcamFilteringWithOpenCVandCUDANPP/src/Webcam/WebcamController.cpp:208-289 | after a sequence of calls, each filter is active iff the last call naming it switched it on, or iff it was active before when no call names it |
| ControllerSpec.FirstActivation | WebcamFilteringWithOpenCVandCUDANPP/src/Webcam/WebcamController.cpp:224-229 | after inserting a new filter, the map has size 1 iff it was empty before: the source's size test detects the first active filter |
| ControllerSpec.ActivatePreservesValid | WebcamFilteringWithOpenCVandCUDANPP/src/Webcam/WebcamController.cpp:214-256 | switching a filter on keeps the invariant: staging buffer iff some filter is active, own buffers and gradients iff their kind is active, all stored buffers allocated |
| ControllerSpec.DeactivatePreservesValid | WebcamFilteringWithOpenCVandCUDANPP/src/Webcam/WebcamController.cpp:258-288 | switching a filter off keeps the same invariant |
| ControllerSpec.ReplayIsValid | WebcamFilteringWithOpenCVandCUDANPP/src/Webcam/WebcamController.cpp:208-289 | from a freshly constructed controller, any sequence of `setActiveFilter` calls leaves resources that exist exactly for the active filters |
| ControllerSpec.SetActiveIsIdempotent | WebcamFilteringWithOpenCVandCUDANPP/src/Webcam/WebcamController.cpp:214-260 | repeating a call with the same filter and flag changes nothing, whatever the camera frame is at the second call |
| ControllerSpec.RedundantCallIsNoOp | WebcamFilteringWithOpenCVandCUDANPP/src/Webcam/WebcamController.cpp:214-260 | activating an active filter or deactivating an inactive one leaves every resource unchanged |
| ControllerSpec.ActivateAddsOneOutput | WebcamFilteringWithOpenCVandCUDANPP/src/Webcam/WebcamController.cpp:216-222 | activating an inactive filter adds exactly its output, allocated with the camera frame's size and type; the count grows by one and the other outputs are unchanged |
| ControllerSpec.ActivateAddsOwnBuffers | WebcamFilteringWithOpenCVandCUDANPP/src/Webcam/WebcamController.cpp:224-256 | activation adds exactly the kind's own buffers, plus the staging buffer iff no filter was active before |
| ControllerSpec.ActivateKeepsBuffers | WebcamFilteringWithOpenCVandCUDANPP/src/Webcam/WebcamController.cpp:224-256 | activating an inactive filter leaves every existing device buffer as it was |
| ControllerSpec.AllocateOwnBuffersFrame | WebcamFilteringWithOpenCVandCUDANPP/src/Webcam/WebcamController.cpp:231-256 | the per-kind allocation adds exactly the kind's own buffers and touches no other |
| ControllerSpec.ActivateAllocatedShapes | WebcamFilteringWithOpenCVandCUDANPP/src/Webcam/WebcamController.cpp:224-250 | the shapes of new buffers: the gray plane is CV_8UC1 at the camera size; the staging, RGB-gray and Sobel buffers and both gradients copy the camera frame's size and type; the gradients are untouched for other kinds |
| ControllerSpec.DeactivateRemovesOneOutput | WebcamFilteringWithOpenCVandCUDANPP/src/Webcam/WebcamController.cpp:260 | deactivating an active filter removes exactly its output; the count drops by one and the other outputs are unchanged |
| ControllerSpec.DeactivateFreesOwnBuffers | WebcamFilteringWithOpenCVandCUDANPP/src/Webcam/WebcamController.cpp:260-285 | deactivation frees exactly the kind's own buffers, plus the staging buffer iff no filter remains; it releases the gradients iff the filter is Sobel; remaining buffers are unchanged |
| ControllerSpec.DeactivateUndoesActivate | WebcamFilteringWithOpenCVandCUDANPP/src/Webcam/WebcamController.cpp:208-289 | switching an inactive filter on and then off restores exactly the previous resources |
| ControllerSpec.ActivationsCommute | WebcamFilteringWithOpenCVandCUDANPP/src/Webcam/WebcamController.cpp:214-256 | activating two filters gives the same resources in either order |
| ControllerSpec.FreshActivationsCommute | WebcamFilteringWithOpenCVandCUDANPP/src/Webcam/WebcamController.cpp:214-256 | the same, for two distinct inactive filters |
| ControllerSpec.OwnBuffersCommute | WebcamFilteringWithOpenCVandCUDANPP/src/Webcam/WebcamController.cpp:231-256 | the per-kind allocations of two kinds commute |
| CaptureCycleSpec.Upload | WebcamFilteringWithOpenCVandCUDANPP/src/Webcam/WebcamController.cpp:94-101 | uploading and mirroring the frame when some filter is active keeps the resource invariant |
| CaptureCycleSpec.GenerateCameraFrame | WebcamFilteringWithOpenCVandCUDANPP/src/Webcam/WebcamController.cpp:131-138 | the None output becomes the staging buffer's frame; the active filters, the device buffers and the gradients are unchanged |
| CaptureCycleSpec.GenerateGrayscaleRGBFrame | WebcamFilteringWithOpenCVandCUDANPP/src/Webcam/WebcamController.cpp:140-163 | a failed gray conversion changes nothing; otherwise the Grayscale output is the downloaded RGB-gray buffer, a three-channel CV_8UC3 image, and the gray plane keeps its size and type; the active filters and the set of device buffers are unchanged |
| CaptureCycleSpec.GenerateSobelFilteredFrame | WebcamFilteringWithOpenCVandCUDANPP/src/Webcam/WebcamController.cpp:165-206 | a failed horizontal pass changes nothing; any failed kernel leaves the outputs and device buffers unchanged; when all three succeed the Sobel output is the downloaded Sobel buffer, with that buffer's shape; the active filters and the set of device buffers are unchanged |
| CaptureCycleSpec.RunFilter | WebcamFilteringWithOpenCVandCUDANPP/src/Webcam/WebcamController.cpp:107-126 | running an active filter's generator keeps the invariant and the set of active filters |
| CaptureCycleSpec.RunSome | WebcamFilteringWithOpenCVandCUDANPP/src/Webcam/WebcamController.cpp:103-127 | running the generators of any set of active filters keeps the invariant and the set of active filters |
| CaptureCycleSpec.Cycle | WebcamFilteringWithOpenCVandCUDANPP/src/Webcam/WebcamController.cpp:85-127 | a capture iteration on a non-empty frame keeps the resource invariant |
| CaptureCycleSpec.RunFilterFrame | WebcamFilteringWithOpenCVandCUDANPP/src/Webcam/WebcamController.cpp:131-206 | a generator writes only its own output and buffers (and, for Sobel, the gradients); the staging buffer, the set of device buffers and all other filters' data are unchanged |
| CaptureCycleSpec.RunFiltersCommute | WebcamFilteringWithOpenCVandCUDANPP/src/Webcam/WebcamController.cpp:103-127 | the generators of any two active filters give the same state in either order |
| CaptureCycleSpec.CameraCommutesWithGrayscale | WebcamFilteringWithOpenCVandCUDANPP/src/Webcam/WebcamController.cpp:131-163 | the camera and grayscale generators commute |
| CaptureCycleSpec.CameraCommutesWithSobel | WebcamFilteringWithOpenCVandCUDANPP/src/Webcam/WebcamController.cpp:131-206 | the camera and Sobel generators commute |
| CaptureCycleSpec.GrayscaleCommutesWithSobel | WebcamFilteringWithOpenCVandCUDANPP/src/Webcam/WebcamController.cpp:140-206 | the grayscale and Sobel generators commute, whichever kernels fail |
| CaptureCycleSpec.GrayscaleCommutesWithSobelWritten | WebcamFilteringWithOpenCVandCUDANPP/src/Webcam/WebcamController.cpp:140-206 | the same, when all four kernels succeed |
| CaptureCycleSpec.RunSomeStep | WebcamFilteringWithOpenCVandCUDANPP/src/Webcam/WebcamController.cpp:103-127 | running one more active filter after any subset gives the state of running the enlarged subset: the loop's visiting order does not matter |
| CaptureCycleSpec.IdleCycleChangesNothing | WebcamFilteringWithOpenCVandCUDANPP/src/Webcam/WebcamController.cpp:94-127 | with no filter active, an iteration uploads nothing and writes nothing |
| CaptureCycleSpec.CycleOutputs | WebcamFilteringWithOpenCVandCUDANPP/src/Webcam/WebcamController.cpp:85-206 | after an iteration: the staging buffer and the None output hold the mirrored frame; the Grayscale output is gray-to-RGB of the gray conversion of that image, at the gray plane's size and CV_8UC3; the Sobel output is the saturated sum of both gradients of that image, at the Sobel buffer's shape; an output whose kernel failed keeps its previous value; the active filters are unchanged |
| WebcamControl.WebcamController.constructor | WebcamFilteringWithOpenCVandCUDANPP/src/Webcam/WebcamController.cpp:14-31 | a new controller has no filter resources and every filter flagged off with its display name; capture may start iff the camera opened and delivered a non-empty first frame |
| WebcamControl.WebcamController.InitVideoCapture | WebcamFilteringWithOpenCVandCUDANPP/src/Webcam/WebcamController.cpp:33-75 | the first frame is stored only when the camera opened; the start flag is raised only when that frame is non-empty |
| WebcamControl.WebcamController.SetActiveFilter | WebcamFilteringWithOpenCVandCUDANPP/src/Webcam/WebcamController.cpp:208-289 | the new resources are exactly `SetActive` of the old ones at the current frame's shape, and the invariant is kept |
| WebcamControl.WebcamController.EnableFilter | WebcamFilteringWithOpenCVandCUDANPP/src/Webcam/WebcamController.cpp:214-257 | the activation branch, with the source's size-one test, produces exactly `Activate` |
| WebcamControl.WebcamController.DisableFilter | WebcamFilteringWithOpenCVandCUDANPP/src/Webcam/WebcamController.cpp:258-288 | the deactivation branch, guarded by the erase count, produces exactly `Deactivate` |
| WebcamControl.WebcamController.CreateOwnBuffers | WebcamFilteringWithOpenCVandCUDANPP/src/Webcam/WebcamController.cpp:231-256 | the per-kind switch resets and creates exactly the kind's buffers, and creates the gradients only for Sobel |
| WebcamControl.WebcamController.ReleaseOwnBuffers | WebcamFilteringWithOpenCVandCUDANPP/src/Webcam/WebcamController.cpp:265-285 | the per-kind switch erases exactly the kind's buffers, and releases the gradients only for Sobel |
| WebcamControl.WebcamController.GetFilteredFrame | WebcamFilteringWithOpenCVandCUDANPP/src/Webcam/WebcamController.cpp:291-301 | reports true iff the filter is active; the frame it yields is that filter's output when found, and the caller's own frame untouched otherwise |
| WebcamControl.WebcamController.GenerateCameraFrame | WebcamFilteringWithOpenCVandCUDANPP/src/Webcam/WebcamController.cpp:131-138 | the new state is the camera generator's result |
| WebcamControl.WebcamController.GenerateGrayscaleRGBFrame | WebcamFilteringWithOpenCVandCUDANPP/src/Webcam/WebcamController.cpp:140-163 | the new state is the grayscale generator's result, including the early return on a failed conversion |
| WebcamControl.WebcamController.GenerateSobelFilteredFrame | WebcamFilteringWithOpenCVandCUDANPP/src/Webcam/WebcamController.cpp:165-206 | the new state is the Sobel generator's result, including the three early returns |
| WebcamControl.WebcamController.RunGenerator | WebcamFilteringWithOpenCVandCUDANPP/src/Webcam/WebcamController.cpp:107-126 | the loop body's switch runs exactly the generator of the visited filter |
| WebcamControl.WebcamController.CaptureIteration | WebcamFilteringWithOpenCVandCUDANPP/src/Webcam/WebcamController.cpp:85-127 | the captured frame becomes current; the loop stops iff it is empty, leaving resources as they were; otherwise, whatever order the active filters are visited in, the new resources are exactly `Cycle` of the old ones, and the invariant is kept |
| ViewEventQueues.Pop | WebcamFilteringWithOpenCVandCUDANPP/src/EventQueues/ViewEventQueue.cpp:3-16 | popping answers nothing iff the queue is empty, and then leaves it empty; otherwise it answers the front and the rest is what follows it |
| ViewEventQueues.ViewEventQueue.constructor | WebcamFilteringWithOpenCVandCUDANPP/src/EventQueues/ViewEventQueue.h:10-20 | a new queue is empty |
| ViewEventQueues.ViewEventQueue.PopViewEvent | WebcamFilteringWithOpenCVandCUDANPP/src/EventQueues/ViewEventQueue.cpp:3-16 | the answer and the new queue are exactly `Pop` of the old queue |
| ViewEventQueues.ViewEventQueue.PushViewEvent | WebcamFilteringWithOpenCVandCUDANPP/src/EventQueues/ViewEventQueue.cpp:18-22 | the event is appended at the back, and earlier events are unchanged |
| ViewEventQueues.PushAllAppends | WebcamFilteringWithOpenCVandCUDANPP/src/EventQueues/ViewEventQueue.cpp:18-22 | pushing several events one by one appends them in order |
| ViewEventQueues.PopAllInOrder | WebcamFilteringWithOpenCVandCUDANPP/src/EventQueues/ViewEventQueue.cpp:3-16 | popping as many times as the queue is long yields its events oldest first and empties it |
| ViewEventQueues.PopEmpty | WebcamFilteringWithOpenCVandCUDANPP/src/EventQueues/ViewEventQueue.cpp:7-10 | any number of pops on an empty queue answer nothing each time and leave it empty |
| ViewEventQueues.Fifo | WebcamFilteringWithOpenCVandCUDANPP/src/EventQueues/ViewEventQueue.cpp:3-22 | events pushed as e1..en onto an empty queue are popped back as e1..en, then nothing, leaving the queue empty |
| ViewEventQueues.FifoOn | WebcamFilteringWithOpenCVandCUDANPP/src/EventQueues/ViewEventQueue.cpp:3-16 | draining any queue yields its events oldest first, then nothing |
| Events.ViewEvent.constructor | WebcamFilteringWithOpenCVandCUDANPP/src/Events/ViewEvent.cpp:3-6 | the default constructor tags the event None |
| Events.ViewEvent.OfType | WebcamFilteringWithOpenCVandCUDANPP/src/Events/ViewEvent.cpp:8-11 | the typed constructor stores exactly the given tag |
| Events.ViewEvent.GetViewEventType | WebcamFilteringWithOpenCVandCUDANPP/src/Events/ViewEvent.cpp:17-20 | the getter returns the constructed tag and reads nothing mutable |
| Events.ViewEvent_ChangeActiveFilters.constructor | WebcamFilteringWithOpenCVandCUDANPP/src/Events/ViewEvent_ChangeActiveFilters.cpp:3-8 | a new event is tagged ChangeActiveFilters, with filter None and flag false |
| Events.ViewEvent_ChangeActiveFilters.SetActiveFilterType | WebcamFilteringWithOpenCVandCUDANPP/src/Events/ViewEvent_ChangeActiveFilters.cpp:10-14 | after the setter the getters return the given filter and flag |
| Events.ViewEvent_ChangeActiveFilters.GetFilterType | WebcamFilteringWithOpenCVandCUDANPP/src/Events/ViewEvent_ChangeActiveFilters.cpp:16-19 | returns the stored filter, changing nothing |
| Events.ViewEvent_ChangeActiveFilters.GetIsActive | WebcamFilteringWithOpenCVandCUDANPP/src/Events/ViewEvent_ChangeActiveFilters.cpp:21-24 | returns the stored flag, changing nothing |
| Events.ViewEvent_ChangeActiveFiltersOnCombinedFilter.constructor | WebcamFilteringWithOpenCVandCUDANPP/src/Events/ViewEvent_ChangeActiveFiltersOnCombinedFilter.cpp:3-8 | a new event is tagged ChangeActiveFiltersOnCombinedFilter, with filter None and flag false |
| Events.ViewEvent_ChangeActiveFiltersOnCombinedFilter.SetActiveFilterTypeOnCombined | WebcamFilteringWithOpenCVandCUDANPP/src/Events/ViewEvent_ChangeActiveFiltersOnCombinedFilter.cpp:10-14 | after the setter the getters return the given filter and flag |
| Events.ViewEvent_ChangeActiveFiltersOnCombinedFilter.GetFilterType | WebcamFilteringWithOpenCVandCUDANPP/src/Events/ViewEvent_ChangeActiveFiltersOnCombinedFilter.cpp:16-19 | returns the stored filter, changing nothing |
| Events.ViewEvent_ChangeActiveFiltersOnCombinedFilter.GetIsActive | WebcamFilteringWithOpenCVandCUDANPP/src/Events/ViewEvent_ChangeActiveFiltersOnCombinedFilter.cpp:21-24 | returns the stored flag, changing nothing |
| Events.ViewEvent_ActivateCombinedFilter.constructor | WebcamFilteringWithOpenCVandCUDANPP/src/Events/ViewEvent_ActivateCombinedFilter.cpp:3-7 | a new event is tagged ActivateCombinedFilter with flag false |
| Events.ViewEvent_ActivateCombinedFilter.SetActivateCombinedFilter | WebcamFilteringWithOpenCVandCUDANPP/src/Events/ViewEvent_ActivateCombinedFilter.cpp:9-12 | after the setter the getter returns the given flag |
| Events.ViewEvent_ActivateCombinedFilter.GetActivateCombinedFilter | WebcamFilteringWithOpenCVandCUDANPP/src/Events/ViewEvent_ActivateCombinedFilter.cpp:14-17 | returns the stored flag, changing nothing |
| ViewEvents.ViewEvent.constructor | WebcamFilteringWithOpenCVandCUDANPP/src/Events/ViewEvents/ViewEvent.cpp:4-7 | the only constructor stores exactly the given tag |
| ViewEvents.ViewEvent.GetViewEventType | WebcamFilteringWithOpenCVandCUDANPP/src/Events/ViewEvents/ViewEvent.cpp:13-16 | the getter returns the constructed tag and reads nothing mutable |
| ViewEvents.ViewChangeFilterEvent.constructor | WebcamFilteringWithOpenCVandCUDANPP/src/Events/ViewEvents/ViewChangeFilterEvents/ViewChangeFilterEvent.cpp:4-7 | the constructor forwards the given tag unchanged to a new base event |
| ViewEvents.ViewChangeFilterEvent.GetFilterType | WebcamFilteringWithOpenCVandCUDANPP/src/Events/ViewEvents/ViewChangeFilterEvents/ViewChangeFilterEvent.cpp:9-12 | returns the stored filter, changing nothing |
| ViewEvents.ViewChangeFilterEvent.GetIsActive | WebcamFilteringWithOpenCVandCUDANPP/src/Events/ViewEvents/ViewChangeFilterEvents/ViewChangeFilterEvent.cpp:14-17 | returns the stored flag, changing nothing |
| ViewEvents.ChangeActiveFilters.constructor | WebcamFilteringWithOpenCVandCUDANPP/src/Events/ViewEvents/ViewChangeFilterEvents/ChangeActiveFilters.cpp:3-8 | a new event is tagged ChangeActiveFilters, and the shared getters return filter None and flag false |
| ViewEvents.ChangeActiveFilters.SetActiveFilterType | WebcamFilteringWithOpenCVandCUDANPP/src/Events/ViewEvents/ViewChangeFilterEvents/ChangeActiveFilters.cpp:10-14 | after the setter the shared getters return the given filter and flag |
| ViewEvents.ChangeActiveFiltersOnCombinedFilter.constructor | WebcamFilteringWithOpenCVandCUDANPP/src/Events/ViewEvents/ViewChangeFilterEvents/ChangeActiveFiltersOnCombinedFilter.cpp:4-9 | a new event is tagged ChangeActiveFiltersOnCombinedFilter, and the shared getters return filter None and flag false |
| ViewEvents.ChangeActiveFiltersOnCombinedFilter.SetActiveFilterTypeOnCombined | WebcamFilteringWithOpenCVandCUDANPP/src/Events/ViewEvents/ViewChangeFilterEvents/ChangeActiveFiltersOnCombinedFilter.cpp:11-15 | after the setter the shared getters return the given filter and flag |
| ViewEvents.ActivateCombinedFilter.constructor | WebcamFilteringWithOpenCVandCUDANPP/src/Events/ViewEvents/ActivateCombinedFilter.cpp:4-8 | a new event is tagged ActivateCombinedFilter with flag false |
| ViewEvents.ActivateCombinedFilter.SetActivateCombinedFilter | WebcamFilteringWithOpenCVandCUDANPP/src/Events/ViewEvents/ActivateCombinedFilter.cpp:10-13 | after the setter the getter returns the given flag |
| ViewEvents.ActivateCombinedFilter.GetActivateCombinedFilter | WebcamFilteringWithOpenCVandCUDANPP/src/Events/ViewEvents/ActivateCombinedFilter.cpp:15-18 | returns the stored flag, changing nothing |

Every type tag is a constant field, and every event's `base` is a constant
field. No setter can therefore change a tag; this is how the model states
that the setters leave the tag unchanged.

## Left out

- Threads and locking: the capture thread (`startVideoCapture`, the `std::jthread`), the per-filter mutexes in `setActiveFilter` and the loop, `setFrameMutexLocked` and the queue's mutex. The model is sequential. The per-filter mutexes do not guard the maps themselves, so a filter switched on or off while the capture loop walks the same map is outside the model.
- The `while (true)` capture loop is modelled as one iteration (`CaptureIteration`), whose result tells the caller whether the loop ends.
- Camera I/O. Whether the camera opened and which frame it delivered are parameters. The requested resolution, frame rate and MJPG format, and the console messages, are not modelled.
- Pixel values. The NPP kernels and the OpenCV calls (`flip`, `cvtColor`, `upload`, `download`) are opaque. A buffer's contents are recorded only as the operations that produced them. Each kernel's status is a parameter.
- A kernel that reports failure is assumed to leave its destination buffer unchanged. The library gives no such guarantee.
- The camera frame's size and type are taken from the current frame at each `setActiveFilter` call. A camera that changes resolution between allocation and a capture iteration is not considered; the kernels' regions of interest are not modelled.
- A matrix allocated with a 0x0 size counts as allocated (`Mat` rather than `EmptyMat`). This happens when a filter is activated before any frame was read.
- `getFilteredFrame` hands back a pointer into the controller's map. The model returns the frame's value, so later updates seen through that pointer (aliasing) are not modelled.
- The combined (composite) filter: the controller declares it but has no implementation in the modelled source, so only the events that ask for it are modelled.
- The view (`WebcamView`), `ImageTexture`, `WebcamMats.h` and the gain slider: presentation, OpenGL and floating-point UI state. Casting a popped event to its concrete class is not modelled either.
- ViewEventQueues.ViewEventQueue.PushViewEvent: a null pointer cannot be pushed, because the queue holds values of `T`. The source would return such a null from `popViewEvent` exactly as it returns null for an empty queue.
- The enumeration `FilterTypeEnum` used by the events lives in `Filters/FilterTypes.h`, which is not part of this model. It is taken to be the controller's `FilterType` (None, Grayscale, Sobel).
- `Events/ViewEvents/ViewEventTypes.h` is not part of this model. The newer revision's tags are taken to be those of `Events/ViewEvent.h`.
- ViewEvents.ViewChangeFilterEvent.constructor: the source leaves the filter and flag uninitialised here, so the model states nothing about them after this constructor; the concrete events' constructors set them.
- The typed `ViewEvent` constructors (`Events.ViewEvent.OfType`, `ViewEvents.ViewEvent.constructor`) are protected in the source but public here, because Dafny has no protected access. A client of the model can therefore build a bare base event with any tag, including None in the newer revision, which the source rules out.
- Destructors are empty in the source and are not modelled.
