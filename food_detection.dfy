/** The detection-review panel: runs the classifier over the uploaded images, lets the
    operator edit, delete and add items, and hands the list over on continue. */
module Detection {
  import opened ArrayOps
  import opened Recommendations
  import Upload

  /** A `Partial<DetectedItem>`: each present field overwrites the item's. */
  datatype ItemUpdate = ItemUpdate(
    name: Option<string>,
    quantity: Option<string>,
    confidence: Option<int>,
    category: Option<Category>)

  /** The add-item form. */
  datatype ItemDraft = ItemDraft(name: string, quantity: string, category: Category)

  const EmptyDraft := ItemDraft("", "", Other)

  /** Confidence of an entry typed in by hand. */
  const ManualConfidence := 100

  predicate ConfidenceInRange(item: DetectedItem) { 0 <= item.confidence <= 100 }

  predicate AllConfidencesInRange(items: seq<DetectedItem>) {
    forall k :: 0 <= k < |items| ==> ConfidenceInRange(items[k])
  }

  predicate UpdateInRange(u: ItemUpdate) { u.confidence.Some? ==> 0 <= u.confidence.value <= 100 }

  /** The canned result of the mock classifier. */
  function MockDetectFood(): (r: seq<DetectedItem>)
    ensures |r| == 6 && AllConfidencesInRange(r)
  {
    [ DetectedItem("Milk", "1 bottle", 95, Dairy),
      DetectedItem("Apples", "6 pieces", 88, Fruits),
      DetectedItem("Chicken Breast", "2 pieces", 92, Meat),
      DetectedItem("Lettuce", "1 head", 85, Vegetables),
      DetectedItem("Orange Juice", "1 carton", 90, Beverages),
      DetectedItem("Yogurt", "4 cups", 87, Dairy) ]
  }

  /** `{ ...item, ...updates }`. */
  function Merge(item: DetectedItem, u: ItemUpdate): DetectedItem {
    DetectedItem(
      if u.name.Some? then u.name.value else item.name,
      if u.quantity.Some? then u.quantity.value else item.quantity,
      if u.confidence.Some? then u.confidence.value else item.confidence,
      if u.category.Some? then u.category.value else item.category)
  }

  /** Merging is idempotent, and an empty update leaves the item as it was. */
  lemma MergeIdempotent(item: DetectedItem, u: ItemUpdate)
    ensures Merge(Merge(item, u), u) == Merge(item, u)
    ensures Merge(item, ItemUpdate(None, None, None, None)) == item
  {
  }

  /** `items.map((item, i) => i === index ? { ...item, ...updates } : item)`. */
  function UpdatedItems(items: seq<DetectedItem>, index: int, u: ItemUpdate): (r: seq<DetectedItem>)
    ensures 0 <= index < |items| ==> r == items[index := Merge(items[index], u)]
    ensures !(0 <= index < |items|) ==> r == items
  {
    seq(|items|, k requires 0 <= k < |items| => if k == index then Merge(items[k], u) else items[k])
  }

  /** Editing keeps the list in range when the update's confidence, if any, is in range. */
  lemma UpdateKeepsConfidences(items: seq<DetectedItem>, index: int, u: ItemUpdate)
    requires AllConfidencesInRange(items) && UpdateInRange(u)
    ensures AllConfidencesInRange(UpdatedItems(items, index, u))
    ensures |UpdatedItems(items, index, u)| == |items|
  {
  }

  /** `items.filter((_, i) => i !== index)`. */
  function RemovedItems(items: seq<DetectedItem>, index: int): seq<DetectedItem> {
    WithoutIndex(items, index)
  }

  lemma RemoveDeletesOneItem(items: seq<DetectedItem>, index: int)
    ensures 0 <= index < |items| ==> RemovedItems(items, index) == items[..index] + items[index + 1..]
    ensures 0 <= index < |items| ==> |RemovedItems(items, index)| == |items| - 1
    ensures !(0 <= index < |items|) ==> RemovedItems(items, index) == items
    ensures AllConfidencesInRange(items) ==> AllConfidencesInRange(RemovedItems(items, index))
  {
    WithoutIndexIsSplice(items, index);
    if 0 <= index < |items| && AllConfidencesInRange(items) {
      var r := RemovedItems(items, index);
      forall k | 0 <= k < |r| ensures ConfidenceInRange(r[k]) {
        if k < index { assert r[k] == items[k]; } else { assert r[k] == items[k + 1]; }
      }
    }
  }

  /** `if (newItem.name && newItem.quantity)`: both strings non-empty. */
  predicate DraftComplete(d: ItemDraft) { d.name != "" && d.quantity != "" }

  /** A hand-typed entry: the form's fields, with the confidence fixed at 100. */
  function ManualItem(d: ItemDraft): (r: DetectedItem)
    ensures r.name == d.name && r.quantity == d.quantity && r.category == d.category
    ensures r.confidence == 100 && ConfidenceInRange(r)
  {
    DetectedItem(d.name, d.quantity, ManualConfidence, d.category)
  }

  /** The component's state. `isDetecting` is true while the classifier runs; the panel
      then shows only a spinner, so the edit actions require it to be false.
      `detectionStarted` records that the effect keyed on `images` has fired: the list is
      fixed while the panel is shown, so it fires at most once, and only for a non-empty list. */
  class FoodDetection {
    const images: seq<Upload.File>
    var isDetecting: bool
    var detectedItems: seq<DetectedItem>
    var editingIndex: Option<int>
    var newItem: ItemDraft
    var showAddForm: bool
    var detectionStarted: bool

    ghost predicate Valid()
      reads this
    {
      && AllConfidencesInRange(detectedItems)
      && (isDetecting ==> detectionStarted)
      && (detectionStarted ==> |images| > 0)
    }

    constructor (images: seq<Upload.File>)
      ensures Valid()
      ensures this.images == images && !isDetecting && detectedItems == []
      ensures editingIndex == None && newItem == EmptyDraft && !showAddForm
      ensures !detectionStarted
    {
      this.images := images;
      isDetecting := false;
      detectedItems := [];
      editingIndex := None;
      newItem := EmptyDraft;
      showAddForm := false;
      detectionStarted := false;
    }

    /** The effect on `images`, calling `handleDetection` up to the classifier call: it runs
        once, and only when there is at least one image. */
    method BeginDetection()
      requires Valid() && !detectionStarted && |images| > 0
      modifies this`isDetecting, this`detectionStarted
      ensures Valid() && isDetecting && detectionStarted
    {
      detectionStarted := true;
      isDetecting := true;
    }

    /** `handleDetection` after the classifier settles: `Some(items)` when it resolved,
        `None` when it threw. The classifier's items carry confidences in [0, 100]. */
    method FinishDetection(result: Option<seq<DetectedItem>>)
      requires Valid() && isDetecting
      requires result.Some? ==> AllConfidencesInRange(result.value)
      modifies this`isDetecting, this`detectedItems
      ensures Valid() && !isDetecting
      ensures detectedItems == if result.Some? then result.value else old(detectedItems)
    {
      if result.Some? {
        detectedItems := result.value;
      }
      isDetecting := false;
    }

    /** `updateItem`: overwrite the fields of one item, and close the editor. */
    method UpdateItem(index: int, u: ItemUpdate)
      requires Valid() && !isDetecting && UpdateInRange(u)
      modifies this`detectedItems, this`editingIndex
      ensures Valid()
      ensures detectedItems == UpdatedItems(old(detectedItems), index, u)
      ensures editingIndex == None
    {
      UpdateKeepsConfidences(detectedItems, index, u);
      detectedItems := UpdatedItems(detectedItems, index, u);
      editingIndex := None;
    }

    /** `removeItem`. */
    method RemoveItem(index: int)
      requires Valid() && !isDetecting
      modifies this`detectedItems
      ensures Valid()
      ensures detectedItems == RemovedItems(old(detectedItems), index)
    {
      RemoveDeletesOneItem(detectedItems, index);
      detectedItems := RemovedItems(detectedItems, index);
    }

    /** The form's `onChange` handlers. */
    method EditDraft(d: ItemDraft)
      requires Valid() && !isDetecting
      modifies this`newItem
      ensures Valid() && newItem == d
    {
      newItem := d;
    }

    /** `addNewItem`: append the form as a manual entry when name and quantity are
        filled in, then clear and hide the form; otherwise do nothing. */
    method AddNewItem()
      requires Valid() && !isDetecting
      modifies this`detectedItems, this`newItem, this`showAddForm
      ensures Valid()
      ensures DraftComplete(old(newItem)) ==>
                detectedItems == old(detectedItems) + [ManualItem(old(newItem))]
                && newItem == EmptyDraft && !showAddForm
      ensures !DraftComplete(old(newItem)) ==>
                detectedItems == old(detectedItems) && newItem == old(newItem) && showAddForm == old(showAddForm)
    {
      if newItem.name != "" && newItem.quantity != "" {
        var item := DetectedItem(newItem.name, newItem.quantity, ManualConfidence, newItem.category);
        detectedItems := detectedItems + [item];
        newItem := EmptyDraft;
        showAddForm := false;
      }
    }

    /** `handleContinue`: the list handed to `onDetectionComplete`. */
    method HandleContinue() returns (handedOver: seq<DetectedItem>)
      requires Valid() && !isDetecting
      ensures handedOver == detectedItems
      ensures AllConfidencesInRange(handedOver)
    {
      handedOver := detectedItems;
    }
  }
}
