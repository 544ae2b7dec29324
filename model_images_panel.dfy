/** The vertical image picker of the selected overlay model: scrolling
    selects the item whose centre is nearest the slider's centre, a
    pointer drag scrolls by the pointer's travel, and clicking an item
    scrolls it to the centre. */
module ImagesPanel {
  import opened Landmarks

  /** An item's layout as the DOM reports it, relative to the slider. */
  datatype ItemBox = ItemBox(offsetTop: real, offsetHeight: real)

  function ItemCenter(item: ItemBox): real
  {
    item.offsetTop + item.offsetHeight / 2.0
  }

  function Distance(item: ItemBox, sliderCenter: real): (d: real)
    ensures d >= 0.0
    ensures d == 0.0 <==> ItemCenter(item) == sliderCenter
  {
    Abs(ItemCenter(item) - sliderCenter)
  }

  /** k is the nearest-to-centre choice: 0 when no item is mounted,
      otherwise a mounted item at least as near as every mounted item and
      strictly nearer than every mounted item before it. */
  ghost predicate IsClosest(items: seq<Option<ItemBox>>, sliderCenter: real, k: nat)
  {
    if forall j :: 0 <= j < |items| ==> items[j].None? then k == 0
    else
      && k < |items| && items[k].Some?
      && (forall j :: 0 <= j < |items| && items[j].Some? ==>
            Distance(items[k].value, sliderCenter) <= Distance(items[j].value, sliderCenter))
      && (forall j :: 0 <= j < k && items[j].Some? ==>
            Distance(items[k].value, sliderCenter) < Distance(items[j].value, sliderCenter))
  }

  /** The search inside the scroll handler: unmounted (null) entries are
      skipped, and a strict comparison keeps the first of equally near
      items. The running best distance starts at infinity (None). */
  method ClosestIndex(items: seq<Option<ItemBox>>, sliderCenter: real) returns (closestIndex: nat)
    ensures IsClosest(items, sliderCenter, closestIndex)
  {
    closestIndex := 0;
    var closestDistance: Option<real> := None;
    for index := 0 to |items|
      invariant closestDistance.None? <==> forall j :: 0 <= j < index ==> items[j].None?
      invariant closestDistance.None? ==> closestIndex == 0
      invariant closestDistance.Some? ==>
                  && closestIndex < index && items[closestIndex].Some?
                  && closestDistance.value == Distance(items[closestIndex].value, sliderCenter)
      invariant closestDistance.Some? ==>
                  forall j :: 0 <= j < index && items[j].Some? ==>
                    closestDistance.value <= Distance(items[j].value, sliderCenter)
      invariant closestDistance.Some? ==>
                  forall j :: 0 <= j < closestIndex && items[j].Some? ==>
                    closestDistance.value < Distance(items[j].value, sliderCenter)
    {
      if items[index].Some? {
        var distance := Distance(items[index].value, sliderCenter);
        if closestDistance.None? || distance < closestDistance.value {
          closestDistance := Some(distance);
          closestIndex := index;
        }
      }
    }
  }

  /** The choice is determined: two indices that both satisfy IsClosest
      are the same. */
  lemma ClosestIsUnique(items: seq<Option<ItemBox>>, sliderCenter: real, k1: nat, k2: nat)
    requires IsClosest(items, sliderCenter, k1) && IsClosest(items, sliderCenter, k2)
    ensures k1 == k2
  {
  }

  /** The scroll position that puts an item's centre at the slider's
      centre. */
  function CenteringOffset(item: ItemBox, sliderHeight: real): (scrollTop: real)
    ensures scrollTop + sliderHeight / 2.0 == ItemCenter(item)
  {
    ItemCenter(item) - sliderHeight / 2.0
  }

  /** Centring a mounted item makes it the scroll handler's choice, unless
      an earlier mounted item has exactly the same centre. */
  lemma CenteredItemIsClosest(items: seq<Option<ItemBox>>, i: nat, sliderHeight: real)
    requires i < |items| && items[i].Some?
    requires forall j :: 0 <= j < i && items[j].Some? ==> ItemCenter(items[j].value) != ItemCenter(items[i].value)
    ensures IsClosest(items, CenteringOffset(items[i].value, sliderHeight) + sliderHeight / 2.0, i)
  {
    var c := CenteringOffset(items[i].value, sliderHeight) + sliderHeight / 2.0;
    assert Distance(items[i].value, c) == 0.0;
  }

  /** Scroll position during a drag. Scroll position plus pointer position
      stays what it was when the drag started, so a pointer back at its
      start restores the starting scroll. */
  function DragScrollTop(scrollStart: real, startY: real, currentY: real): (scrollTop: real)
    ensures scrollTop + currentY == scrollStart + startY
    ensures currentY == startY ==> scrollTop == scrollStart
  {
    scrollStart + (startY - currentY)
  }

  /** The panel's DOM state and refs. */
  class Panel {
    /** itemRefs.current: one entry per image, null while unmounted. */
    var items: seq<Option<ItemBox>>
    /** slider.offsetHeight */
    var sliderHeight: real
    /** slider.scrollTop */
    var scrollTop: real
    var selectedIndex: nat
    var isDragging: bool
    var touchStartY: real
    var scrollStartY: real
    /** The image indices handed to onImageSelect, oldest first. */
    var selections: seq<nat>

    constructor (items: seq<Option<ItemBox>>, sliderHeight: real)
      ensures this.items == items && this.sliderHeight == sliderHeight
      ensures scrollTop == 0.0 && selectedIndex == 0 && !isDragging
      ensures touchStartY == 0.0 && scrollStartY == 0.0 && selections == []
    {
      this.items := items;
      this.sliderHeight := sliderHeight;
      scrollTop := 0.0;
      selectedIndex := 0;
      isDragging := false;
      touchStartY := 0.0;
      scrollStartY := 0.0;
      selections := [];
    }

    /** Scroll handler: select the item nearest the slider centre, and
      report it only when the selection changes. */
    method HandleScroll()
      modifies this
      ensures IsClosest(items, scrollTop + sliderHeight / 2.0, selectedIndex)
      ensures selections == old(selections) + (if selectedIndex != old(selectedIndex) then [selectedIndex] else [])
      ensures items == old(items) && sliderHeight == old(sliderHeight) && scrollTop == old(scrollTop)
      ensures isDragging == old(isDragging) && touchStartY == old(touchStartY) && scrollStartY == old(scrollStartY)
    {
      var sliderCenter := scrollTop + sliderHeight / 2.0;
      var closestIndex := ClosestIndex(items, sliderCenter);
      if closestIndex != selectedIndex {
        selectedIndex := closestIndex;
        selections := selections + [closestIndex];
      }
    }

    /** Clicking item `index` (and the effect run when the selection
      changes, with the selected index) scrolls it to the centre if it is
      mounted; the smooth animation's end point is modelled. */
    method ScrollToItem(index: nat)
      modifies this`scrollTop
      ensures index < |items| && items[index].Some? ==>
                scrollTop == CenteringOffset(items[index].value, sliderHeight)
      ensures !(index < |items| && items[index].Some?) ==> scrollTop == old(scrollTop)
    {
      if index < |items| && items[index].Some? {
        var item := items[index].value;
        var itemCenter := item.offsetTop + item.offsetHeight / 2.0;
        var sliderCenter := sliderHeight / 2.0;
        scrollTop := itemCenter - sliderCenter;
      }
    }

    method TouchStart(clientY: real)
      modifies this`touchStartY, this`scrollStartY
      ensures touchStartY == clientY && scrollStartY == scrollTop
    {
      touchStartY := clientY;
      scrollStartY := scrollTop;
    }

    method TouchMove(clientY: real)
      modifies this`scrollTop
      ensures scrollTop == DragScrollTop(scrollStartY, touchStartY, clientY)
    {
      var touchDelta := touchStartY - clientY;
      scrollTop := scrollStartY + touchDelta;
    }

    method MouseDown(clientY: real)
      modifies this`isDragging, this`touchStartY, this`scrollStartY
      ensures isDragging && touchStartY == clientY && scrollStartY == scrollTop
    {
      isDragging := true;
      touchStartY := clientY;
      scrollStartY := scrollTop;
    }

    /** Mouse moves scroll only while a mouse drag is in progress. */
    method MouseMove(clientY: real)
      modifies this`scrollTop
      ensures isDragging ==> scrollTop == DragScrollTop(scrollStartY, touchStartY, clientY)
      ensures !isDragging ==> scrollTop == old(scrollTop)
    {
      if !isDragging {
        return;
      }
      var mouseDelta := touchStartY - clientY;
      scrollTop := scrollStartY + mouseDelta;
    }

    /** Mouse up and mouse leave both end a mouse drag. */
    method EndDrag()
      modifies this`isDragging
      ensures !isDragging
    {
      isDragging := false;
    }
  }
}
