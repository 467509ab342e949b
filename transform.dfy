/**
 * The two-slot transform session of the preview page, as values: the state the
 * page keeps between events and one function per event handler, each giving
 * the state after the handler has run. The imperative page itself, with the
 * slots in an array updated in place, is in module PreviewPage.
 */
module Transform {
  import opened Wrappers
  import Names

  /** A preview slot, known to the page by its element id "0" or "1". */
  datatype SlotId = Zero | One {
    /** The slot's position in the page's list of image elements. */
    function Index(): (i: nat)
      ensures i < 2
      ensures (i == 0) == Zero?
    {
      if Zero? then 0 else 1
    }
  }

  /** A pair of pixel coordinates: a pointer position or a background offset. */
  datatype Vec = Vec(x: int, y: int) {
    function Plus(d: Vec): (sum: Vec) { Vec(x + d.x, y + d.y) }
    function Minus(o: Vec): (difference: Vec) { Vec(x - o.x, y - o.y) }
  }

  /** A file chosen or dropped by the user: its name and its bytes. */
  datatype File = File(name: string, content: seq<bv8>)

  /** A slot's `background-image`: an object URL made for a file. */
  datatype ImageSource = ObjectUrl(file: File)

  /**
   * The state of one image element: its `background-image`,
   * `background-size` (a percent), `background-position` (pixels) and whether
   * it carries the `blurred` class. `None` is a style property that is unset.
   */
  datatype Slot = Slot(image: Option<ImageSource>, size: Option<int>, offset: Option<Vec>, blurred: bool)

  /** The size slider: its value and whether it is enabled. */
  datatype Slider = Slider(value: int, enabled: bool)

  /**
   * Values the page's markup and style sheet supply: the value the slider
   * takes when it is given a size that is not a number, and, for each slot,
   * the computed `background-position` it has while its own was never set.
   */
  datatype Ambient = Ambient(sliderFallback: int, defaultOffset0: Vec, defaultOffset1: Vec) {
    function DefaultOffset(id: SlotId): (v: Vec)
      ensures v == if id == Zero then defaultOffset0 else defaultOffset1
    {
      match id
      case Zero => defaultOffset0
      case One => defaultOffset1
    }
  }

  /**
   * Everything the handlers read and write: the focused slot, the pointer
   * position of a drag in progress, the two slots, the slider, and whether the
   * preview area is shown in place of the upload area.
   */
  datatype State = State(
    focus: Option<SlotId>,
    anchor: Option<Vec>,
    slots: seq<Slot>,
    slider: Slider,
    previewShown: bool)

  /** The slider value that reset restores. */
  const ResetSliderValue: int := 200

  const EmptySlot: Slot := Slot(None, None, None, false)

  predicate WellFormed(s: State) {
    |s.slots| == 2
  }

  /**
   * The focus invariant: the slider is enabled exactly when a slot is focused,
   * and a slot is blurred exactly when another slot is focused. So with focus
   * the focused slot is the only one not blurred, and without it none is.
   */
  predicate FocusConsistent(s: State)
    requires WellFormed(s)
  {
    s.slider.enabled == s.focus.Some? &&
    forall i :: 0 <= i < 2 ==> s.slots[i].blurred == (s.focus.Some? && i != s.focus.value.Index())
  }

  /** The page as loaded: no images, no transforms, no focus, slider disabled at 200. */
  function Initial(): (r: State)
    ensures WellFormed(r) && FocusConsistent(r)
    ensures r.focus == None && r.anchor == None && !r.previewShown
  {
    State(None, None, [EmptySlot, EmptySlot], Slider(ResetSliderValue, false), false)
  }

  /** `b` is `a` with at most its blurred flag changed. */
  predicate SameTransform(a: Slot, b: Slot) {
    a.(blurred := b.blurred) == b
  }

  /** Adds (`b`) or removes (`!b`) the blurred class on every slot. */
  function SetBlurred(slots: seq<Slot>, b: bool): (r: seq<Slot>)
    ensures |r| == |slots|
    ensures forall i :: 0 <= i < |r| ==> r[i] == slots[i].(blurred := b)
  {
    seq(|slots|, i requires 0 <= i < |slots| => slots[i].(blurred := b))
  }

  // ----- focus toggle (a click on an image) -----

  /**
   * Clicking the focused slot clears the focus; clicking any other slot
   * focuses it and seeds the slider with that slot's size. Whatever the state
   * before, the focus invariant holds after, and no image, size or offset
   * changes.
   */
  function Toggle(s: State, id: SlotId, amb: Ambient): (r: State)
    requires WellFormed(s)
    ensures WellFormed(r) && FocusConsistent(r)
    ensures r.focus == None <==> s.focus == Some(id)
    ensures r.focus != None ==> r.focus == Some(id)
    ensures r.focus != None ==> r.slider.value == s.slots[id.Index()].size.GetOr(amb.sliderFallback)
    ensures r.focus == None ==> r.slider.value == s.slider.value
    ensures forall i :: 0 <= i < 2 ==> SameTransform(r.slots[i], s.slots[i])
    ensures r.anchor == s.anchor && r.previewShown == s.previewShown
  {
    if s.focus == Some(id) then
      s.(focus := None, slider := s.slider.(enabled := false), slots := SetBlurred(s.slots, false))
    else
      var k := id.Index();
      var all := SetBlurred(s.slots, true);
      s.(focus := Some(id),
         slider := Slider(s.slots[k].size.GetOr(amb.sliderFallback), true),
         slots := all[k := all[k].(blurred := false)])
  }

  /**
   * Two clicks on the same slot end with no focus, the slider disabled and
   * nothing blurred, unless that slot was focused before: then they end with
   * it focused again. Neither click changes an image, size or offset.
   */
  lemma DoubleToggle(s: State, id: SlotId, amb: Ambient)
    requires WellFormed(s)
    ensures var r := Toggle(Toggle(s, id, amb), id, amb);
      (s.focus != Some(id) ==>
        r.focus == None && !r.slider.enabled && !r.slots[0].blurred && !r.slots[1].blurred) &&
      (s.focus == Some(id) ==> r.focus == Some(id) && r.slider.enabled) &&
      forall i :: 0 <= i < 2 ==> SameTransform(r.slots[i], s.slots[i])
  {
  }

  /** Two clicks on a slot that was already focused do not leave the page unfocused. */
  // ----- scale (input on the size slider) -----

  /**
   * An input on the size slider. The browser first moves the slider to
   * `value` (a disabled slider takes no input); the handler then does
   * nothing without focus and otherwise sets the focused slot's size to the
   * slider's value. In a state with the focus invariant the slider is enabled
   * exactly when a slot is focused, so without focus nothing changes and with
   * focus both the slider and the focused slot's size become `value`.
   */
  function Scale(s: State, value: int): (r: State)
    requires WellFormed(s)
    ensures WellFormed(r)
    ensures r.slider == if s.slider.enabled then s.slider.(value := value) else s.slider
    ensures s.focus.Some? ==>
      r.slots[s.focus.value.Index()] == s.slots[s.focus.value.Index()].(size := Some(r.slider.value))
    ensures forall i :: 0 <= i < 2 && (s.focus == None || i != s.focus.value.Index()) ==> r.slots[i] == s.slots[i]
    ensures r.(slots := s.slots, slider := s.slider) == s
    ensures FocusConsistent(s) && s.focus == None ==> r == s
    ensures FocusConsistent(s) && s.focus.Some? ==>
      r.slider.value == value && r.slots[s.focus.value.Index()].size == Some(value)
    ensures FocusConsistent(s) ==> FocusConsistent(r)
  {
    var moved := if s.slider.enabled then s.(slider := s.slider.(value := value)) else s;
    match moved.focus
    case None => moved
    case Some(id) =>
      moved.(slots := moved.slots[id.Index() := moved.slots[id.Index()].(size := Some(moved.slider.value))])
  }

  /** Only the last of several slider inputs matters. */
  lemma ScaleLastWins(s: State, a: int, b: int)
    requires WellFormed(s)
    ensures Scale(Scale(s, a), b) == Scale(s, b)
  {
  }

  /**
   * The slider and the focused slot's size agree after an input, so
   * unfocusing and focusing the slot again seeds the slider with that size.
   */
  lemma RefocusSeedsScaledSize(s: State, id: SlotId, value: int, amb: Ambient)
    requires WellFormed(s) && FocusConsistent(s) && s.focus == Some(id)
    ensures var r := Toggle(Toggle(Scale(s, value), id, amb), id, amb);
      r.focus == Some(id) && r.slider == Slider(value, true) && r.slots[id.Index()].size == Some(value)
  {
  }

  // ----- drag start, move and end -----

  /** Drag start records the pointer position, focused or not, and changes nothing else. */
  function DragStart(s: State, pointer: Vec): (r: State)
    ensures r.anchor == Some(pointer)
    ensures r.(anchor := s.anchor) == s
  {
    s.(anchor := Some(pointer))
  }

  /** Drag end forgets the pointer position and changes nothing else. */
  function DragEnd(s: State): (r: State)
    ensures r.anchor == None
    ensures r.(anchor := s.anchor) == s
  {
    s.(anchor := None)
  }

  /** The offset slot `id` is shown at: its own, or the style sheet's if it was never moved. */
  function Displayed(s: State, id: SlotId, amb: Ambient): (v: Vec)
    requires WellFormed(s)
    ensures s.slots[id.Index()].offset.Some? ==> v == s.slots[id.Index()].offset.value
    ensures s.slots[id.Index()].offset.None? ==> v == amb.DefaultOffset(id)
  {
    s.slots[id.Index()].offset.GetOr(amb.DefaultOffset(id))
  }

  /** `r` is `s` with at most slot `id`'s offset changed, ignoring the drag anchor. */
  predicate OnlyOffsetChanged(r: State, s: State, id: SlotId)
    requires WellFormed(r) && WellFormed(s)
  {
    r.(slots := s.slots, anchor := s.anchor) == s &&
    r.slots[id.Index()].(offset := s.slots[id.Index()].offset) == s.slots[id.Index()] &&
    forall i :: 0 <= i < 2 && i != id.Index() ==> r.slots[i] == s.slots[i]
  }

  /**
   * A drag move shifts the dragged slot by the pointer's movement since the
   * anchor and makes the current pointer position the new anchor.
   */
  function DragMove(s: State, id: SlotId, pointer: Vec, amb: Ambient): (r: State)
    requires WellFormed(s) && s.anchor.Some?
    ensures WellFormed(r) && r.anchor == Some(pointer)
    ensures r.slots[id.Index()].offset ==
      Some(Displayed(s, id, amb).Plus(pointer.Minus(s.anchor.value)))
    ensures OnlyOffsetChanged(r, s, id)
    ensures FocusConsistent(s) ==> FocusConsistent(r)
  {
    var k := id.Index();
    var moved := Displayed(s, id, amb).Plus(pointer.Minus(s.anchor.value));
    s.(slots := s.slots[k := s.slots[k].(offset := Some(moved))], anchor := Some(pointer))
  }

  /** The drag moves reported for one slot, one pointer position each, in order. */
  function Moves(s: State, id: SlotId, pointers: seq<Vec>, amb: Ambient): (r: State)
    requires WellFormed(s) && s.anchor.Some?
    ensures WellFormed(r) && r.anchor.Some?
    decreases |pointers|
  {
    if pointers == [] then s
    else Moves(DragMove(s, id, pointers[0], amb), id, pointers[1..], amb)
  }

  /**
   * After a run of drag moves the slot has moved by exactly the distance from
   * the first anchor to the last pointer position: the steps telescope.
   */
  lemma {:induction false} MovesTelescope(s: State, id: SlotId, pointers: seq<Vec>, amb: Ambient)
    requires WellFormed(s) && s.anchor.Some? && pointers != []
    ensures var r := Moves(s, id, pointers, amb);
      r.anchor == Some(pointers[|pointers| - 1]) &&
      r.slots[id.Index()].offset ==
        Some(Displayed(s, id, amb).Plus(pointers[|pointers| - 1].Minus(s.anchor.value))) &&
      OnlyOffsetChanged(r, s, id)
    decreases |pointers|
  {
    var s1 := DragMove(s, id, pointers[0], amb);
    if |pointers| > 1 {
      MovesTelescope(s1, id, pointers[1..], amb);
    }
  }

  /**
   * A whole drag gesture: start at `start`, moves through `pointers`, end.
   * The slot ends shifted by the last pointer position minus the start, with
   * no anchor left and nothing else changed.
   */
  lemma DragGesture(s: State, id: SlotId, start: Vec, pointers: seq<Vec>, amb: Ambient)
    requires WellFormed(s) && pointers != []
    ensures var r := DragEnd(Moves(DragStart(s, start), id, pointers, amb));
      WellFormed(r) && r.anchor == None &&
      r.slots[id.Index()].offset ==
        Some(Displayed(s, id, amb).Plus(pointers[|pointers| - 1].Minus(start))) &&
      OnlyOffsetChanged(r, s, id)
  {
    MovesTelescope(DragStart(s, start), id, pointers, amb);
  }

  /** Start at (10, 10), move to (15, 13), end: the slot has moved by (5, 3). */
  lemma DragByFiveThree(s: State, id: SlotId, amb: Ambient)
    requires WellFormed(s)
    ensures var r := DragEnd(DragMove(DragStart(s, Vec(10, 10)), id, Vec(15, 13), amb));
      r.slots[id.Index()].offset == Some(Displayed(s, id, amb).Plus(Vec(5, 3)))
  {
  }

  // ----- swap -----

  /** Swap exchanges the two images; sizes, offsets, blur and focus stay where they are. */
  function Swap(s: State): (r: State)
    requires WellFormed(s)
    ensures WellFormed(r)
    ensures r.slots[0].image == s.slots[1].image && r.slots[1].image == s.slots[0].image
    ensures forall i :: 0 <= i < 2 ==> r.slots[i].(image := s.slots[i].image) == s.slots[i]
    ensures r.(slots := s.slots) == s
    ensures FocusConsistent(s) ==> FocusConsistent(r)
  {
    s.(slots := [s.slots[0].(image := s.slots[1].image), s.slots[1].(image := s.slots[0].image)])
  }

  lemma SwapTwice(s: State)
    requires WellFormed(s)
    ensures Swap(Swap(s)) == s
  {
  }

  // ----- reset -----

  /** Clears every slot's size and offset and removes its blurred class. */
  function ClearTransforms(slots: seq<Slot>): (r: seq<Slot>)
    ensures |r| == |slots|
    ensures forall i :: 0 <= i < |r| ==> r[i] == Slot(slots[i].image, None, None, false)
  {
    seq(|slots|, i requires 0 <= i < |slots| => Slot(slots[i].image, None, None, false))
  }

  /**
   * Reset: no focus, slider disabled at 200, upload area shown again, and both
   * slots without size, offset or blur. The images and a drag anchor are kept.
   */
  function Reset(s: State): (r: State)
    requires WellFormed(s)
    ensures WellFormed(r) && FocusConsistent(r)
    ensures r.focus == None && r.slider == Slider(ResetSliderValue, false) && !r.previewShown
    ensures forall i :: 0 <= i < 2 ==>
      r.slots[i].image == s.slots[i].image && r.slots[i].size == None && r.slots[i].offset == None
    ensures r.anchor == s.anchor
  {
    s.(focus := None, slider := Slider(ResetSliderValue, false), previewShown := false,
       slots := ClearTransforms(s.slots))
  }

  lemma ResetIdempotent(s: State)
    requires WellFormed(s)
    ensures Reset(Reset(s)) == Reset(s)
  {
  }

  /** Reset forgets every transform: only the images and the anchor survive it. */
  lemma ResetForgetsTransforms(s: State, t: State)
    requires WellFormed(s) && WellFormed(t)
    requires s.slots[0].image == t.slots[0].image && s.slots[1].image == t.slots[1].image
    requires s.anchor == t.anchor
    ensures Reset(s) == Reset(t)
  {
  }

  // ----- file intake -----

  /** The first two files, or all of them if fewer, ordered by name; equal names keep their order. */
  function FirstTwoByName(files: seq<File>): (r: seq<File>)
    ensures |r| == if |files| < 2 then |files| else 2
    ensures multiset(r) == multiset(files[..|r|])
    ensures |r| == 2 ==> Names.LessEq(r[0].name, r[1].name)
    ensures |r| == 2 && files[0].name == files[1].name ==> r == files[..2]
  {
    if |files| < 2 then files
    else if Names.Less(files[1].name, files[0].name) then
      Names.LessAsymmetric(files[1].name, files[0].name);
      Names.LessIrreflexive(files[0].name);
      assert files[..2] == [files[0], files[1]];
      [files[1], files[0]]
    else files[..2]
  }

  /** Slot `slot` shows the object URL of `f`. */
  predicate Shows(slot: Slot, f: File) {
    slot.image == Some(ObjectUrl(f))
  }

  /**
   * File intake. Fewer than two files: nothing changes. Otherwise the first
   * two files (later ones are ignored) go to slots 0 and 1 in name order, the
   * preview area is shown, and nothing else changes.
   */
  function Intake(s: State, files: seq<File>): (r: State)
    requires WellFormed(s)
    ensures WellFormed(r)
    ensures |files| < 2 ==> r == s
    ensures |files| >= 2 ==> r.previewShown
    ensures |files| >= 2 ==>
      (Shows(r.slots[0], files[0]) && Shows(r.slots[1], files[1])) ||
      (Shows(r.slots[0], files[1]) && Shows(r.slots[1], files[0]))
    ensures |files| >= 2 ==>
      r.slots[0].image.Some? && r.slots[1].image.Some? &&
      Names.LessEq(r.slots[0].image.value.file.name, r.slots[1].image.value.file.name)
    ensures |files| >= 2 && files[0].name == files[1].name ==>
      Shows(r.slots[0], files[0]) && Shows(r.slots[1], files[1])
    ensures forall i :: 0 <= i < 2 ==> r.slots[i].(image := s.slots[i].image) == s.slots[i]
    ensures r.(slots := s.slots, previewShown := s.previewShown) == s
    ensures FocusConsistent(s) ==> FocusConsistent(r)
  {
    var chosen := FirstTwoByName(files);
    if |chosen| < 2 then s
    else
      assert multiset(chosen) == multiset{files[0], files[1]} by {
        assert files[..2] == [files[0], files[1]];
      }
      assert chosen[0] in multiset(chosen) && chosen[1] in multiset(chosen);
      s.(previewShown := true,
         slots := [s.slots[0].(image := Some(ObjectUrl(chosen[0]))),
                   s.slots[1].(image := Some(ObjectUrl(chosen[1])))])
  }

  /** ["b.png", "a.png", ...] puts a.png in slot 0 and b.png in slot 1. */
  lemma IntakeOrdersByName(s: State, a: seq<bv8>, b: seq<bv8>, rest: seq<File>)
    requires WellFormed(s)
    ensures var r := Intake(s, [File("b.png", b), File("a.png", a)] + rest);
      Shows(r.slots[0], File("a.png", a)) && Shows(r.slots[1], File("b.png", b))
  {
  }

  // ----- any sequence of handled events -----

  /** The events the page handles. */
  datatype Event =
    | Click(id: SlotId)
    | SliderInput(value: int)
    | DragStarted(id: SlotId, pointer: Vec)
    | Dragged(id: SlotId, pointer: Vec)
    | DragEnded(id: SlotId)
    | SwapClicked
    | ResetClicked
    | FilesChosen(files: seq<File>)

  /**
   * The state after one event. A drag move with no anchor throws before the
   * handler writes anything, so it leaves the state as it was.
   */
  function Step(s: State, e: Event, amb: Ambient): (r: State)
    requires WellFormed(s)
    ensures WellFormed(r)
    ensures FocusConsistent(s) ==> FocusConsistent(r)
    ensures e.Dragged? && s.anchor.None? ==> r == s
  {
    match e
    case Click(id) => Toggle(s, id, amb)
    case SliderInput(v) => Scale(s, v)
    case DragStarted(_, p) => DragStart(s, p)
    case Dragged(id, p) => if s.anchor.Some? then DragMove(s, id, p, amb) else s
    case DragEnded(_) => DragEnd(s)
    case SwapClicked => Swap(s)
    case ResetClicked => Reset(s)
    case FilesChosen(files) => Intake(s, files)
  }

  function Run(s: State, events: seq<Event>, amb: Ambient): (r: State)
    requires WellFormed(s)
    ensures WellFormed(r)
    decreases |events|
  {
    if events == [] then s else Run(Step(s, events[0], amb), events[1..], amb)
  }

  /** Every event keeps the focus invariant, so every sequence of events does. */
  lemma {:induction false} RunKeepsFocusConsistent(s: State, events: seq<Event>, amb: Ambient)
    requires WellFormed(s) && FocusConsistent(s)
    ensures FocusConsistent(Run(s, events, amb))
    decreases |events|
  {
    if events != [] {
      RunKeepsFocusConsistent(Step(s, events[0], amb), events[1..], amb);
    }
  }

  /** From the page as loaded, any sequence of events leaves at most one slot focused and it alone unblurred. */
  lemma ReachableFocusConsistent(events: seq<Event>, amb: Ambient)
    ensures FocusConsistent(Run(Initial(), events, amb))
  {
    RunKeepsFocusConsistent(Initial(), events, amb);
  }
}
