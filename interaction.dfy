/** The interaction state machine of the application shell: the scene mode,
    the gallery overlay flag, the camera input switch and the 2D interaction
    vector, changed by discrete input events. Each handler is one atomic
    transition on the current state. */
module Interaction {
  import opened Types

  /** One classified gesture: the top category of the first hand. */
  datatype Gesture = Gesture(categoryName: string, score: real)

  /** The state cells and the interaction-vector ref of the App component. */
  datatype AppState = AppState(
    treeState: TreeState,
    galleryOpen: bool,
    useCamera: bool,
    modelLoaded: bool,
    mouse: Vec2)

  /** The state on mount. */
  const Initial := AppState(TreeShape, false, false, false, Vec2(0.0, 0.0))

  /** The invariant every handler keeps: an open gallery implies the tree shape. */
  predicate Consistent(s: AppState) {
    s.galleryOpen ==> s.treeState == TreeShape
  }

  // ---------------------------------------------------------------------------
  // Coordinate normalisation

  /** Horizontal viewport coordinate to [-1, 1], left edge -1. */
  function NormalizeX(clientX: real, width: real): (x: real)
    requires width > 0.0
    ensures 0.0 <= clientX <= width ==> -1.0 <= x <= 1.0
    ensures (x + 1.0) / 2.0 * width == clientX
  {
    clientX / width * 2.0 - 1.0
  }

  /** Vertical viewport coordinate to [-1, 1], top edge +1 (screen y grows downward). */
  function NormalizeY(clientY: real, height: real): (y: real)
    requires height > 0.0
    ensures 0.0 <= clientY <= height ==> -1.0 <= y <= 1.0
    ensures (1.0 - y) / 2.0 * height == clientY
  {
    -(clientY / height) * 2.0 + 1.0
  }

  /** A hand landmark in normalised image coordinates to an interaction
      vector: the pointer mapping on a unit viewport with x mirrored, since
      the camera image faces the user. */
  function LandmarkToInteraction(point: Vec2): (v: Vec2)
    ensures v.x == -NormalizeX(point.x, 1.0) && v.y == NormalizeY(point.y, 1.0)
    ensures 0.0 <= point.x <= 1.0 && 0.0 <= point.y <= 1.0 ==>
              -1.0 <= v.x <= 1.0 && -1.0 <= v.y <= 1.0
  {
    var x := (point.x - 0.5) * 2.0;
    var y := -(point.y - 0.5) * 2.0;
    Vec2(-x, y)
  }

  // ---------------------------------------------------------------------------
  // Transitions, one per event

  /** Pointer press or touch start: form the tree, unless the camera drives
      the scene or the gallery is open. */
  function PointerDown(s: AppState): (r: AppState)
    ensures !s.useCamera && !s.galleryOpen ==> r == s.(treeState := TreeShape)
    ensures s.useCamera || s.galleryOpen ==> r == s
    ensures Consistent(s) ==> Consistent(r)
  {
    if !s.useCamera && !s.galleryOpen then s.(treeState := TreeShape) else s
  }

  /** Pointer release or touch end: scatter, under the same guard. */
  function PointerUp(s: AppState): (r: AppState)
    ensures !s.useCamera && !s.galleryOpen ==> r == s.(treeState := Scattered)
    ensures s.useCamera || s.galleryOpen ==> r == s
    ensures Consistent(s) ==> Consistent(r)
  {
    if !s.useCamera && !s.galleryOpen then s.(treeState := Scattered) else s
  }

  /** Mouse or first-touch movement: replaces the interaction vector with the
      normalised viewport position, unless the camera feeds it. */
  function PointerMove(s: AppState, clientX: real, clientY: real, width: real, height: real): (r: AppState)
    requires width > 0.0 && height > 0.0
    ensures s.useCamera ==> r == s
    ensures !s.useCamera ==> r == s.(mouse := r.mouse)
    ensures !s.useCamera && 0.0 <= clientX <= width && 0.0 <= clientY <= height ==>
              -1.0 <= r.mouse.x <= 1.0 && -1.0 <= r.mouse.y <= 1.0
    ensures !s.useCamera ==>
              (r.mouse.x + 1.0) / 2.0 * width == clientX && (1.0 - r.mouse.y) / 2.0 * height == clientY
  {
    if s.useCamera then s
    else s.(mouse := Vec2(NormalizeX(clientX, width), NormalizeY(clientY, height)))
  }

  /** A tracked hand landmark replaces the interaction vector. */
  function ApplyLandmark(s: AppState, point: Vec2): (r: AppState)
    ensures r.mouse == LandmarkToInteraction(point)
    ensures r == s.(mouse := r.mouse)
  {
    s.(mouse := LandmarkToInteraction(point))
  }

  /** A recognised gesture. Only a score above 0.5 acts: an open palm
      scatters while the gallery is closed; a closed fist closes the gallery
      and forms the tree from any state. */
  function ApplyGesture(s: AppState, g: Gesture): (r: AppState)
    ensures g.score > 0.5 && g.categoryName == "Closed_Fist" ==>
              r == s.(galleryOpen := false, treeState := TreeShape)
    ensures g.score > 0.5 && g.categoryName == "Open_Palm" ==>
              r == (if s.galleryOpen then s else s.(treeState := Scattered))
    ensures g.score <= 0.5 || (g.categoryName != "Closed_Fist" && g.categoryName != "Open_Palm") ==>
              r == s
    ensures Consistent(s) ==> Consistent(r)
  {
    if g.score > 0.5 then
      if g.categoryName == "Open_Palm" then
        if !s.galleryOpen then s.(treeState := Scattered) else s
      else if g.categoryName == "Closed_Fist" then
        s.(galleryOpen := false, treeState := TreeShape)
      else s
    else s
  }

  /** One recognition result: the landmark branch first, then the gesture branch. */
  function ApplyRecognition(s: AppState, landmark: Option<Vec2>, gesture: Option<Gesture>): (r: AppState)
    ensures landmark.Some? ==> r.mouse == LandmarkToInteraction(landmark.value)
    ensures landmark.None? ==> r.mouse == s.mouse
    ensures gesture.None? ==> r == s.(mouse := r.mouse)
    ensures gesture.Some? ==> r == ApplyGesture(s.(mouse := r.mouse), gesture.value)
    ensures r.useCamera == s.useCamera && r.modelLoaded == s.modelLoaded
    ensures Consistent(s) ==> Consistent(r)
  {
    var s1 := if landmark.Some? then ApplyLandmark(s, landmark.value) else s;
    if gesture.Some? then ApplyGesture(s1, gesture.value) else s1
  }

  /** A click on the tree's hit region opens the gallery and forms the tree;
      with the gallery already open it does nothing. */
  function TreeClick(s: AppState): (r: AppState)
    ensures !s.galleryOpen ==> r == s.(galleryOpen := true, treeState := TreeShape)
    ensures s.galleryOpen ==> r == s
    ensures Consistent(s) ==> Consistent(r)
  {
    if !s.galleryOpen then s.(galleryOpen := true, treeState := TreeShape) else s
  }

  /** The gallery's close request closes the overlay and leaves the mode alone. */
  function CloseGallery(s: AppState): (r: AppState)
    ensures r == s.(galleryOpen := false)
    ensures !r.galleryOpen && Consistent(r)
  {
    s.(galleryOpen := false)
  }

  /** The camera button, which is disabled until the gesture model has loaded. */
  function ToggleCamera(s: AppState): (r: AppState)
    ensures s.modelLoaded ==> r == s.(useCamera := !s.useCamera)
    ensures !s.modelLoaded ==> r == s
    ensures Consistent(s) ==> Consistent(r)
  {
    if s.modelLoaded then s.(useCamera := !s.useCamera) else s
  }

  /** Camera access denied or failed: fall back to pointer input. */
  function CameraFailed(s: AppState): (r: AppState)
    ensures r == s.(useCamera := false)
    ensures Consistent(s) ==> Consistent(r)
  {
    s.(useCamera := false)
  }

  /** The gesture model finished loading. */
  function ModelLoaded(s: AppState): (r: AppState)
    ensures r == s.(modelLoaded := true)
    ensures Consistent(s) ==> Consistent(r)
  {
    s.(modelLoaded := true)
  }

  // ---------------------------------------------------------------------------
  // Event traces

  datatype Event =
    | PointerDownEvent
    | PointerUpEvent
    | PointerMoveEvent(clientX: real, clientY: real, width: real, height: real)
    | RecognitionEvent(landmark: Option<Vec2>, gesture: Option<Gesture>)
    | TreeClickEvent
    | GalleryCloseEvent
    | CameraToggleEvent
    | CameraFailureEvent
    | ModelLoadedEvent

  /** The viewport sizes a browser reports are positive. */
  predicate WellFormed(e: Event) {
    e.PointerMoveEvent? ==> e.width > 0.0 && e.height > 0.0
  }

  function Apply(s: AppState, e: Event): (r: AppState)
    requires WellFormed(e)
    ensures Consistent(s) ==> Consistent(r)
    ensures !e.RecognitionEvent? && !e.PointerMoveEvent? ==> r.mouse == s.mouse
  {
    match e
    case PointerDownEvent => PointerDown(s)
    case PointerUpEvent => PointerUp(s)
    case PointerMoveEvent(cx, cy, w, h) => PointerMove(s, cx, cy, w, h)
    case RecognitionEvent(l, g) => ApplyRecognition(s, l, g)
    case TreeClickEvent => TreeClick(s)
    case GalleryCloseEvent => CloseGallery(s)
    case CameraToggleEvent => ToggleCamera(s)
    case CameraFailureEvent => CameraFailed(s)
    case ModelLoadedEvent => ModelLoaded(s)
  }

  /** The state after handling a sequence of events in order. */
  function Run(s: AppState, events: seq<Event>): AppState
    requires forall k :: 0 <= k < |events| ==> WellFormed(events[k])
    decreases events
  {
    if events == [] then s else Run(Apply(s, events[0]), events[1..])
  }

  /** No sequence of events breaks the invariant. */
  lemma {:induction false} RunKeepsConsistent(s: AppState, events: seq<Event>)
    requires forall k :: 0 <= k < |events| ==> WellFormed(events[k])
    requires Consistent(s)
    ensures Consistent(Run(s, events))
    decreases events
  {
    if events != [] {
      RunKeepsConsistent(Apply(s, events[0]), events[1..]);
    }
  }

  /** Every state reachable from mount satisfies the invariant. */
  lemma ReachableConsistent(events: seq<Event>)
    requires forall k :: 0 <= k < |events| ==> WellFormed(events[k])
    ensures Consistent(Run(Initial, events))
  {
    RunKeepsConsistent(Initial, events);
  }

  /** Handling the same closed-fist gesture twice is handling it once. */
  lemma FistIdempotent(s: AppState, g: Gesture)
    requires g.score > 0.5 && g.categoryName == "Closed_Fist"
    ensures ApplyGesture(ApplyGesture(s, g), g) == ApplyGesture(s, g)
    ensures !ApplyGesture(s, g).galleryOpen && ApplyGesture(s, g).treeState == TreeShape
  {
  }

  /** A burst of n >= 1 closed-fist recognitions, whatever else they carry,
      leaves the gallery closed and the tree formed, whatever the prior state. */
  function Fists(n: nat, g: Gesture): (events: seq<Event>)
    ensures |events| == n
    ensures forall k :: 0 <= k < n ==> events[k] == RecognitionEvent(None, Some(g))
  {
    if n == 0 then [] else [RecognitionEvent(None, Some(g))] + Fists(n - 1, g)
  }

  lemma {:induction false} RepeatedFists(s: AppState, g: Gesture, n: nat)
    requires g.score > 0.5 && g.categoryName == "Closed_Fist"
    requires n >= 1
    ensures Run(s, Fists(n, g)) == s.(galleryOpen := false, treeState := TreeShape)
    decreases n
  {
    var s1 := Apply(s, RecognitionEvent(None, Some(g)));
    assert s1 == s.(galleryOpen := false, treeState := TreeShape);
    assert Fists(n, g)[1..] == Fists(n - 1, g);
    if n > 1 {
      RepeatedFists(s1, g, n - 1);
    }
  }

  /** Opening the gallery by a click and closing it again leaves the tree formed. */
  lemma ClickThenClose(s: AppState)
    requires !s.galleryOpen
    ensures CloseGallery(TreeClick(s)) == s.(treeState := TreeShape)
  {
  }

  // ---------------------------------------------------------------------------
  // The component's state cells, updated in place by the handlers

  class App {
    var treeState: TreeState
    var isGalleryOpen: bool
    var useCamera: bool
    var modelLoaded: bool
    var mouseInteraction: Vec2

    function State(): AppState
      reads this
    {
      AppState(treeState, isGalleryOpen, useCamera, modelLoaded, mouseInteraction)
    }

    constructor ()
      ensures State() == Initial && Consistent(State())
    {
      treeState := TreeShape;
      isGalleryOpen := false;
      useCamera := false;
      modelLoaded := false;
      mouseInteraction := Vec2(0.0, 0.0);
    }

    method HandlePointerDown()
      modifies this
      ensures State() == PointerDown(old(State()))
    {
      if !useCamera && !isGalleryOpen {
        treeState := TreeShape;
      }
    }

    method HandlePointerUp()
      modifies this
      ensures State() == PointerUp(old(State()))
    {
      if !useCamera && !isGalleryOpen {
        treeState := Scattered;
      }
    }

    method HandleMouseMove(clientX: real, clientY: real, innerWidth: real, innerHeight: real)
      requires innerWidth > 0.0 && innerHeight > 0.0
      modifies this
      ensures State() == PointerMove(old(State()), clientX, clientY, innerWidth, innerHeight)
    {
      if !useCamera {
        var x := (clientX / innerWidth) * 2.0 - 1.0;
        var y := -(clientY / innerHeight) * 2.0 + 1.0;
        mouseInteraction := Vec2(x, y);
      }
    }

    /** Touch movement reads the first touch point; a touchmove event always
        carries at least one. */
    method HandleTouchMove(touches: seq<Vec2>, innerWidth: real, innerHeight: real)
      requires |touches| > 0
      requires innerWidth > 0.0 && innerHeight > 0.0
      modifies this
      ensures State() == PointerMove(old(State()), touches[0].x, touches[0].y, innerWidth, innerHeight)
    {
      if !useCamera {
        var x := (touches[0].x / innerWidth) * 2.0 - 1.0;
        var y := -(touches[0].y / innerHeight) * 2.0 + 1.0;
        mouseInteraction := Vec2(x, y);
      }
    }

    /** The body of one prediction step once the recogniser produced a result:
        `landmark` is point 9 of the first hand, if any hand was found, and
        `gesture` the top category of the first hand, if any. */
    method HandleRecognition(landmark: Option<Vec2>, gesture: Option<Gesture>)
      modifies this
      ensures State() == ApplyRecognition(old(State()), landmark, gesture)
    {
      if landmark.Some? {
        var point := landmark.value;
        var x := (point.x - 0.5) * 2.0;
        var y := -(point.y - 0.5) * 2.0;
        mouseInteraction := Vec2(-x, y);
      }
      if gesture.Some? {
        var category := gesture.value.categoryName;
        var score := gesture.value.score;
        if score > 0.5 {
          if category == "Open_Palm" {
            if !isGalleryOpen {
              treeState := Scattered;
            }
          } else if category == "Closed_Fist" {
            if isGalleryOpen {
              isGalleryOpen := false;
            }
            treeState := TreeShape;
          }
        }
      }
    }

    method HandleTreeClick()
      modifies this
      ensures State() == TreeClick(old(State()))
    {
      if !isGalleryOpen {
        isGalleryOpen := true;
        treeState := TreeShape;
      }
    }

    method HandleGalleryClose()
      modifies this
      ensures State() == CloseGallery(old(State()))
    {
      isGalleryOpen := false;
    }

    /** The camera button's click; a disabled button delivers no click. */
    method HandleCameraToggle()
      modifies this
      ensures State() == ToggleCamera(old(State()))
    {
      if modelLoaded {
        useCamera := !useCamera;
      }
    }

    method HandleCameraFailure()
      modifies this
      ensures State() == CameraFailed(old(State()))
    {
      useCamera := false;
    }

    method HandleModelLoaded()
      modifies this
      ensures State() == ModelLoaded(old(State()))
    {
      modelLoaded := true;
    }
  }
}
