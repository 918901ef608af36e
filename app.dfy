/** The step flow of `app.ts`: welcome, upload, frame choice and editor, with
    the photo and frame chosen along the way. */
module AppFlow {
  import opened Basics
  import opened FrameModel

  datatype Step = Welcome | Upload | Frames | Editor

  /** `goBack`: one step towards the welcome screen, which stays put. */
  function Back(s: Step): Step {
    match s
    case Upload => Welcome
    case Frames => Upload
    case Editor => Frames
    case Welcome => Welcome
  }

  /** How many steps a screen lies from the welcome screen. */
  function Depth(s: Step): (d: nat)
    ensures d <= 3
    ensures d == 0 <==> s == Welcome
  {
    match s
    case Welcome => 0
    case Upload => 1
    case Frames => 2
    case Editor => 3
  }

  function BackTimes(s: Step, n: nat): Step
    decreases n
  {
    if n == 0 then s else BackTimes(Back(s), n - 1)
  }

  /** Going back lowers the depth by one until the welcome screen, and the
      depth determines the screen. */
  lemma BackLowersDepth(s: Step)
    ensures s != Welcome ==> Depth(Back(s)) == Depth(s) - 1
    ensures s == Welcome ==> Back(s) == Welcome
    ensures forall t: Step :: Depth(t) == Depth(s) ==> t == s
  {
  }

  /** `n` presses of back take a screen `n` steps closer to the welcome
      screen, stopping there. */
  lemma {:induction false} BackTimesDepth(s: Step, n: nat)
    decreases n
    ensures Depth(BackTimes(s, n)) == if n >= Depth(s) then 0 else Depth(s) - n
  {
    if n > 0 {
      BackLowersDepth(s);
      BackTimesDepth(Back(s), n - 1);
    }
  }

  /** Three presses of back reach the welcome screen from anywhere. */
  lemma ThreeBacksReachWelcome(s: Step, n: nat)
    requires n >= 3
    ensures BackTimes(s, n) == Welcome
  {
    BackTimesDepth(s, n);
  }

  class App {
    var currentStep: Step
    var selectedImage: Option<string>
    var selectedFrame: Option<Frame>

    constructor ()
      ensures currentStep == Welcome && selectedImage.None? && selectedFrame.None?
    {
      currentStep := Welcome;
      selectedImage, selectedFrame := None, None;
    }

    method StartCreating()
      modifies this`currentStep
      ensures currentStep == Upload
    {
      currentStep := Upload;
    }

    method OnCreateNew()
      modifies this`currentStep
      ensures currentStep == Upload
    {
      StartCreating();
    }

    method ViewFrames()
      modifies this`currentStep
      ensures currentStep == Frames
    {
      currentStep := Frames;
    }

    /** The upload step hands on a photo: keep it and choose a frame. */
    method OnImageSelected(imageUrl: string)
      modifies this`currentStep, this`selectedImage
      ensures selectedImage == Some(imageUrl) && currentStep == Frames
    {
      selectedImage := Some(imageUrl);
      currentStep := Frames;
    }

    /** The gallery hands on a frame: keep it and open the editor. */
    method OnFrameSelected(frame: Frame)
      modifies this`currentStep, this`selectedFrame
      ensures selectedFrame == Some(frame) && currentStep == Editor
    {
      selectedFrame := Some(frame);
      currentStep := Editor;
    }

    /** Open the editor without choosing a frame; an earlier choice stays. */
    method SkipFrameSelection()
      modifies this`currentStep
      ensures currentStep == Editor
    {
      currentStep := Editor;
    }

    /** `goBack`: the previous screen; the choices made so far stay. */
    method GoBack()
      modifies this`currentStep
      ensures currentStep == Back(old(currentStep))
    {
      match currentStep
      case Upload => currentStep := Welcome;
      case Frames => currentStep := Upload;
      case Editor => currentStep := Frames;
      case Welcome => currentStep := Welcome;
    }

    /** `restart`: back to the welcome screen with nothing chosen. */
    method Restart()
      modifies this`currentStep, this`selectedImage, this`selectedFrame
      ensures currentStep == Welcome && selectedImage.None? && selectedFrame.None?
    {
      currentStep := Welcome;
      selectedImage, selectedFrame := None, None;
    }
  }
}
