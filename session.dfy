/**
 * The preview page as the script keeps it: two module-level variables (the
 * focused slot and the drag anchor), the list of the two image elements whose
 * style and classes the handlers change in place, the size slider and the
 * visibility of the preview area. Each handler is a method proved to move the
 * page from `View()` to the state module Transform gives for its event.
 */
module PreviewPage {
  import opened Wrappers
  import opened Transform

  class Session {
    /** Values supplied by the page's markup and style sheet. */
    const ambient: Ambient
    /** The two image elements, indexed by their ids. */
    const slots: array<Slot>
    /** `focusedImage`. */
    var focus: Option<SlotId>
    /** `firstPosition`. */
    var anchor: Option<Vec>
    var slider: Slider
    var previewShown: bool

    ghost function View(): State
      reads this, slots
    {
      State(focus, anchor, slots[..], slider, previewShown)
    }

    /** Two slots, and the focus invariant. */
    ghost predicate Valid()
      reads this, slots
    {
      slots.Length == 2 && FocusConsistent(View())
    }

    constructor (ambient: Ambient)
      ensures Valid() && fresh(slots)
      ensures this.ambient == ambient && View() == Initial()
    {
      this.ambient := ambient;
      slots := new Slot[2](_ => EmptySlot);
      focus := None;
      anchor := None;
      slider := Slider(ResetSliderValue, false);
      previewShown := false;
      new;
      assert slots[..] == [EmptySlot, EmptySlot];
    }

    /** `swapImages`: exchange the two `background-image` values. */
    method SwapImages()
      requires Valid()
      modifies slots
      ensures Valid() && View() == Swap(old(View()))
    {
      var imageOneSrc := slots[0].image;
      var imageTwoSrc := slots[1].image;
      slots[0] := slots[0].(image := imageTwoSrc);
      slots[1] := slots[1].(image := imageOneSrc);
    }

    /**
     * `onFileChange`: keep the first two files, sort them by name, give up if
     * fewer than two remain, else show the preview and load the files into
     * the slots in that order.
     */
    method OnFileChange(input: seq<File>)
      requires Valid()
      modifies this`previewShown, slots
      ensures Valid() && View() == Intake(old(View()), input)
    {
      var files := FirstTwoByName(input);
      if |files| < 2 {
        return;
      }
      previewShown := true;
      for index := 0 to |files|
        invariant forall j :: 0 <= j < index ==> slots[j] == old(slots[j]).(image := Some(ObjectUrl(files[j])))
        invariant forall j :: index <= j < 2 ==> slots[j] == old(slots[j])
        invariant previewShown
      {
        slots[index] := slots[index].(image := Some(ObjectUrl(files[index])));
      }
      assert slots[..] == Intake(old(View()), input).slots;
    }

    /** `init`: clear the focus, put the slider back to 200 and disabled, show the upload area, reset the images. */
    method Init()
      requires Valid()
      modifies this`focus, this`slider, this`previewShown, slots
      ensures Valid() && View() == Reset(old(View()))
    {
      focus := None;
      slider := slider.(value := ResetSliderValue);
      slider := slider.(enabled := false);
      previewShown := false;
      ResetImages();
    }

    /** `resetImages`: unset every slot's size and position and remove its blurred class. */
    method ResetImages()
      requires slots.Length == 2
      modifies slots
      ensures slots[..] == ClearTransforms(old(slots[..]))
    {
      for i := 0 to slots.Length
        invariant forall j :: 0 <= j < i ==> slots[j] == old(slots[j]).(size := None, offset := None, blurred := false)
        invariant forall j :: i <= j < slots.Length ==> slots[j] == old(slots[j])
      {
        slots[i] := slots[i].(size := None);
        slots[i] := slots[i].(offset := None);
        slots[i] := slots[i].(blurred := false);
      }
    }

    /**
     * An input on the size slider: the browser moves the slider to `value`
     * unless it is disabled, then `setImageSize` sets the focused slot's size
     * to the slider's value, doing nothing without focus.
     */
    method SetImageSize(value: int)
      requires Valid()
      modifies this`slider, slots
      ensures Valid() && View() == Scale(old(View()), value)
    {
      if slider.enabled {
        slider := slider.(value := value);
      }
      if focus == None {
        return;
      }
      var k := focus.value.Index();
      slots[k] := slots[k].(size := Some(slider.value));
    }

    /** `setInitialPosition`: remember where the drag started. */
    method SetInitialPosition(pointer: Vec)
      requires Valid()
      modifies this`anchor
      ensures Valid() && View() == DragStart(old(View()), pointer)
    {
      anchor := Some(pointer);
    }

    /**
     * `setImagePosition`: shift the dragged slot by the pointer's movement
     * since the anchor, starting from the style sheet's position if the slot
     * has none of its own, and move the anchor to the pointer.
     */
    method SetImagePosition(id: SlotId, pointer: Vec)
      requires Valid() && anchor.Some?
      modifies this`anchor, slots
      ensures Valid() && View() == DragMove(old(View()), id, pointer, ambient)
    {
      var distance := pointer.Minus(anchor.value);
      var k := id.Index();
      var currentPosition := ambient.DefaultOffset(id);
      if slots[k].offset.Some? {
        currentPosition := slots[k].offset.value;
      }
      slots[k] := slots[k].(offset := Some(currentPosition.Plus(distance)));
      anchor := Some(pointer);
    }

    /** `resetPositionVal`: the drag is over. */
    method ResetPositionVal()
      requires Valid()
      modifies this`anchor
      ensures Valid() && View() == DragEnd(old(View()))
    {
      anchor := None;
    }

    /**
     * `setFocusedImage`: a click on the focused slot unfocuses it, disables
     * the slider and unblurs every slot; a click on another slot focuses it,
     * enables and seeds the slider, blurs every slot and unblurs the clicked one.
     */
    method SetFocusedImage(id: SlotId)
      requires Valid()
      modifies this`focus, this`slider, slots
      ensures Valid() && View() == Toggle(old(View()), id, ambient)
    {
      if focus == Some(id) {
        focus := None;
        slider := slider.(enabled := false);
        for i := 0 to slots.Length
          invariant forall j :: 0 <= j < i ==> slots[j] == old(slots[j]).(blurred := false)
          invariant focus == None && slider == old(slider).(enabled := false)
          invariant forall j :: i <= j < slots.Length ==> slots[j] == old(slots[j])
        {
          slots[i] := slots[i].(blurred := false);
        }
        assert slots[..] == SetBlurred(old(slots[..]), false);
      } else {
        focus := Some(id);
        slider := slider.(enabled := true);
        slider := slider.(value := slots[id.Index()].size.GetOr(ambient.sliderFallback));
        for i := 0 to slots.Length
          invariant forall j :: 0 <= j < i ==> slots[j] == old(slots[j]).(blurred := true)
          invariant focus == Some(id) && slider == Slider(old(slots[id.Index()]).size.GetOr(ambient.sliderFallback), true)
          invariant forall j :: i <= j < slots.Length ==> slots[j] == old(slots[j])
        {
          slots[i] := slots[i].(blurred := true);
        }
        ghost var all := SetBlurred(old(slots[..]), true);
        assert slots[..] == all;
        var k := id.Index();
        slots[k] := slots[k].(blurred := false);
        assert slots[..] == all[k := all[k].(blurred := false)];

      }
    }
  }
}
