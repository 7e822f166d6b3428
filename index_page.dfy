/** The page controller: a four-step wizard (upload, review detection, recommendations,
    apply) holding the artefact each step produces for the next. Each step's component is
    rendered only at that step, so its handler is only reachable there. */
module Pipeline {
  import opened ArrayOps
  import opened Recommendations
  import Upload

  const StepLabels: seq<string> := ["Upload Images", "Review Detection", "AI Recommendations", "Apply Settings"]

  class Index {
    var currentStep: int
    var uploadedImages: seq<Upload.File>
    var detectedItems: seq<DetectedItem>
    var recommendation: Option<Recommendation>

    /** The step names one of the four labels; past the upload step there is at least one
        image; items arrive at step 2; a recommendation is held exactly at step 3. */
    ghost predicate Valid()
      reads this
    {
      && 0 <= currentStep < |StepLabels|
      && (currentStep >= 1 ==> |uploadedImages| > 0)
      && (currentStep < 2 ==> detectedItems == [])
      && (recommendation.Some? <==> currentStep == 3)
    }

    predicate StartOverOffered()
      reads this
    {
      currentStep > 0
    }

    /** The state every run starts from and every reset returns to. */
    ghost predicate Initial()
      reads this
    {
      currentStep == 0 && uploadedImages == [] && detectedItems == [] && recommendation == None
    }

    constructor ()
      ensures Valid() && Initial()
    {
      currentStep := 0;
      uploadedImages := [];
      detectedItems := [];
      recommendation := None;
    }

    /** `handleImagesUploaded`: the upload panel reports its whole list. */
    method HandleImagesUploaded(images: seq<Upload.File>)
      requires Valid() && currentStep == 0
      modifies this`uploadedImages
      ensures Valid()
      ensures uploadedImages == images && currentStep == old(currentStep)
    {
      uploadedImages := images;
    }

    /** `handleContinueToDetection`: moves on only when some image has been uploaded. */
    method HandleContinueToDetection()
      requires Valid() && currentStep == 0
      modifies this`currentStep
      ensures Valid()
      ensures currentStep == if |uploadedImages| > 0 then 1 else old(currentStep)
    {
      if |uploadedImages| > 0 {
        currentStep := 1;
      }
    }

    /** `handleDetectionComplete`: stores the reviewed items as given, empty or not. */
    method HandleDetectionComplete(items: seq<DetectedItem>)
      requires Valid() && currentStep == 1
      modifies this`detectedItems, this`currentStep
      ensures Valid()
      ensures detectedItems == items && currentStep == 2
    {
      detectedItems := items;
      currentStep := 2;
    }

    /** `handleRecommendationAccept`. */
    method HandleRecommendationAccept(rec: Recommendation)
      requires Valid() && currentStep == 2
      modifies this`recommendation, this`currentStep
      ensures Valid()
      ensures recommendation == Some(rec) && currentStep == 3
    {
      recommendation := Some(rec);
      currentStep := 3;
    }

    /** Clears every artefact and returns to the first step. */
    method Reset()
      modifies this
      ensures Valid() && Initial()
    {
      currentStep := 0;
      uploadedImages := [];
      detectedItems := [];
      recommendation := None;
    }

    /** `handleComplete`, reached through the apply panel's `onComplete`. */
    method HandleComplete()
      requires Valid() && currentStep == 3
      modifies this
      ensures Valid() && Initial()
    {
      Reset();
    }

    /** The "Start Over" button, shown past the first step. */
    method StartOver()
      requires Valid() && StartOverOffered()
      modifies this
      ensures Valid() && Initial()
    {
      Reset();
    }
  }

  /** At the apply step the page always has a recommendation to hand to the apply panel. */
  lemma ApplyStepHasRecommendation(p: Index)
    requires p.Valid() && p.currentStep == 3
    ensures p.recommendation.Some?
    ensures |p.uploadedImages| > 0
  {
  }
}
