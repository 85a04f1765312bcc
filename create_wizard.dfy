/** The portrait-creation page: a four-step wizard (upload, sport,
    generating, result) whose handlers upload a photo, pick a sport and ask
    the generation service for a portrait. The service is outside the
    model: each call's outcome is a parameter of the handler that makes it,
    and the handler returns the request it made. */
module CreateWizard {
  import opened Text

  datatype Step = Upload | Sport | Generating | Result

  datatype SportOption = SportOption(id: string, name: string)

  /** The sports offered on the sport step, in display order. */
  const SportOptions: seq<SportOption> := [
    SportOption("soccer", "Soccer"), SportOption("basketball", "Basketball"),
    SportOption("baseball", "Baseball"), SportOption("football", "Football"),
    SportOption("volleyball", "Volleyball"), SportOption("softball", "Softball"),
    SportOption("lacrosse", "Lacrosse"), SportOption("hockey", "Hockey")]

  /** A file the user picked or dropped: its declared MIME type and the data
      URL the browser's file reader produces for it. */
  datatype ImageFile = ImageFile(mimeType: string, dataUrl: string)

  /** How a generation call ended: the response `{ok, data?, error?}` it
      resolved to, or an exception. */
  datatype GenOutcome = Resolved(ok: bool, data: Option<string>, error: Option<string>) | Threw

  /** A call to the generation service: the photo and the sport id. */
  datatype GenRequest = GenRequest(photo: string, sport: string)

  /** The controls the page renders, with what pressing each one passes to
      its handler. */
  datatype Control =
    | ChooseFile(file: ImageFile)
    | DropFiles(files: seq<ImageFile>)
    | PickSport(index: nat)
    | Generate
    | RemovePhotoButton
    | CreateAnother

  /** The file a press hands to the file handler: the chosen file, or the
      first of the dropped ones. */
  function FileOf(c: Control): (f: Option<ImageFile>)
    ensures f.Some? <==> c.ChooseFile? || (c.DropFiles? && c.files != [])
  {
    match c
    case ChooseFile(file) => Some(file)
    case DropFiles(files) => if files != [] then Some(files[0]) else None
    case _ => None
  }

  const GenerationFailed := "Generation failed. Please try again."
  const SomethingWentWrong := "Something went wrong. Please try again."

  /** The first step: straight to the upload when the page was opened with a
      sport, otherwise the sport choice. */
  function InitialStep(sportParam: Option<string>): (s: Step)
    ensures s == Upload <==> Truthy(sportParam)
    ensures s == Upload || s == Sport
  {
    if Truthy(sportParam) then Upload else Sport
  }

  /** An outcome that yields a portrait: `ok` and a non-empty `data`. */
  predicate Succeeded(o: GenOutcome) {
    o.Resolved? && o.ok && Truthy(o.data)
  }

  /** The message a failed outcome leaves on the page: the service's error
      text when it gave a non-empty one, a generic text otherwise. It is
      never empty, so a failure always leaves a message; the page renders
      it only on the upload step. */
  function FailureMessage(o: GenOutcome): (m: string)
    ensures m != ""
    ensures o.Threw? ==> m == SomethingWentWrong
    ensures o.Resolved? ==> (m == GenerationFailed || (Truthy(o.error) && m == o.error.value))
    ensures o.Resolved? && Truthy(o.error) ==> m == o.error.value
  {
    match o
    case Threw => SomethingWentWrong
    case Resolved(_, _, e) => if Truthy(e) then e.value else GenerationFailed
  }

  // ---- the step indicator ----------------------------------------------

  /** The three pills of the step indicator, left to right. */
  const IndicatorSteps: seq<Step> := [Upload, Sport, Result]

  /** A pill is active when it is the current step; the result pill is also
      active while the portrait is being generated. */
  predicate IsActive(step: Step, pill: Step) {
    step == pill || (step == Generating && pill == Result)
  }

  /** A pill is done once the wizard has moved past it. */
  predicate IsDone(step: Step, pill: Step) {
    (pill == Upload && step != Upload) ||
    (pill == Sport && (step == Generating || step == Result))
  }

  /** The position of the active pill in the indicator. */
  function ActivePill(step: Step): nat {
    match step
    case Upload => 0
    case Sport => 1
    case Generating => 2
    case Result => 2
  }

  /** The indicator reads as a progress bar: exactly one pill is active, and
      the done pills are exactly the ones to its left. */
  lemma IndicatorIsProgress(step: Step, k: nat)
    requires k < |IndicatorSteps|
    ensures IsActive(step, IndicatorSteps[k]) <==> k == ActivePill(step)
    ensures IsDone(step, IndicatorSteps[k]) <==> k < ActivePill(step)
  {
  }

  /** The pills one by one: upload is done once the step is not upload, sport
      once generation has started, result never; result is active while
      generating and on the result step. */
  lemma IndicatorRules(step: Step)
    ensures IsDone(step, Upload) <==> step != Upload
    ensures IsDone(step, Sport) <==> step == Generating || step == Result
    ensures !IsDone(step, Result)
    ensures IsActive(step, Result) <==> step == Result || step == Generating
  {
  }

  // ---- the wizard's state ----------------------------------------------

  class Wizard {
    var step: Step
    var uploadedImage: Option<string>
    var selectedSport: Option<string>
    var generatedImages: seq<string>
    var error: Option<string>

    /** The result step always has exactly one portrait to show, and neither
        the generating nor the result step carries an error. */
    ghost predicate Valid()
      reads this
    {
      && |generatedImages| <= 1
      && (step == Result ==> |generatedImages| == 1 && generatedImages[0] != "" && error == None)
      && (step == Generating ==> error == None)
    }

    /** The state a settled generation leaves: the portrait and the result
        step on success, otherwise the failure's message and `fallback`. */
    ghost predicate SettledBy(outcome: GenOutcome, fallback: Step, images: seq<string>)
      reads this
    {
      if Succeeded(outcome) then
        step == Result && generatedImages == [outcome.data.value] && error == None
      else
        step == fallback && generatedImages == images && error == Some(FailureMessage(outcome))
    }

    /** The page opened, with or without a `sport` query parameter. */
    constructor (sportParam: Option<string>)
      ensures Valid()
      ensures step == InitialStep(sportParam) && selectedSport == sportParam
      ensures uploadedImage == None && generatedImages == [] && error == None
    {
      step := InitialStep(sportParam);
      uploadedImage := None;
      selectedSport := sportParam;
      generatedImages := [];
      error := None;
    }

    /** Entering the generating step clears the error. */
    method BeginGenerating()
      requires Valid()
      modifies this
      ensures Valid()
      ensures step == Generating && error == None
      ensures uploadedImage == old(uploadedImage) && selectedSport == old(selectedSport)
      ensures generatedImages == old(generatedImages)
    {
      step := Generating;
      error := None;
    }

    /** The generation call settled; a failure returns to `fallback`. */
    method FinishGeneration(outcome: GenOutcome, fallback: Step)
      requires Valid() && step == Generating
      requires fallback == Upload || fallback == Sport
      modifies this
      ensures Valid() && step != Generating
      ensures SettledBy(outcome, fallback, old(generatedImages))
      ensures uploadedImage == old(uploadedImage) && selectedSport == old(selectedSport)
    {
      if Succeeded(outcome) {
        generatedImages := [outcome.data.value];
        step := Result;
      } else {
        error := Some(FailureMessage(outcome));
        step := fallback;
      }
    }

    /** A file was chosen. Anything but an image is ignored. An image is
        stored; with a sport already chosen it is sent for generation at
        once (a failure returns to the upload step), otherwise the wizard
        moves on to the sport step without calling the service. */
    method HandleFile(file: ImageFile, outcome: GenOutcome) returns (request: Option<GenRequest>)
      requires Valid()
      modifies this
      ensures Valid()
      ensures !StartsWith(file.mimeType, "image/") ==> request == None && unchanged(this)
      ensures StartsWith(file.mimeType, "image/") ==>
        uploadedImage == Some(file.dataUrl) && selectedSport == old(selectedSport)
      ensures StartsWith(file.mimeType, "image/") && !Truthy(old(selectedSport)) ==>
        && request == None && step == Sport
        && generatedImages == old(generatedImages) && error == old(error)
      ensures StartsWith(file.mimeType, "image/") && Truthy(old(selectedSport)) ==>
        && request == Some(GenRequest(file.dataUrl, old(selectedSport).value))
        && SettledBy(outcome, Upload, old(generatedImages))
    {
      if !StartsWith(file.mimeType, "image/") {
        return None;
      }
      uploadedImage := Some(file.dataUrl);
      if Truthy(selectedSport) {
        BeginGenerating();
        request := Some(GenRequest(file.dataUrl, selectedSport.value));
        FinishGeneration(outcome, Upload);
      } else {
        step := Sport;
        request := None;
      }
    }

    /** Files were dropped on the upload area: the first one, if any, is
        handled as a chosen file. */
    method HandleDrop(files: seq<ImageFile>, outcome: GenOutcome) returns (request: Option<GenRequest>)
      requires Valid()
      modifies this
      ensures Valid()
      ensures files == [] ==> request == None && unchanged(this)
      ensures files != [] && !StartsWith(files[0].mimeType, "image/") ==> request == None && unchanged(this)
      ensures files != [] && StartsWith(files[0].mimeType, "image/") ==>
        uploadedImage == Some(files[0].dataUrl) && selectedSport == old(selectedSport)
      ensures files != [] && StartsWith(files[0].mimeType, "image/") && !Truthy(old(selectedSport)) ==>
        && request == None && step == Sport
        && generatedImages == old(generatedImages) && error == old(error)
      ensures files != [] && StartsWith(files[0].mimeType, "image/") && Truthy(old(selectedSport)) ==>
        && request == Some(GenRequest(files[0].dataUrl, old(selectedSport).value))
        && SettledBy(outcome, Upload, old(generatedImages))
    {
      request := None;
      if files != [] {
        request := HandleFile(files[0], outcome);
      }
    }

    /** One of the sport buttons was pressed. */
    method SelectSport(index: nat)
      requires Valid() && index < |SportOptions|
      modifies this
      ensures Valid()
      ensures selectedSport == Some(SportOptions[index].id)
      ensures step == old(step) && uploadedImage == old(uploadedImage)
      ensures generatedImages == old(generatedImages) && error == old(error)
    {
      selectedSport := Some(SportOptions[index].id);
    }

    /** The generate button: nothing happens unless both a photo and a sport
        are present; otherwise the photo is sent and a failure returns to the
        sport step. */
    method HandleGenerate(outcome: GenOutcome) returns (request: Option<GenRequest>)
      requires Valid()
      modifies this
      ensures Valid()
      ensures !(Truthy(old(uploadedImage)) && Truthy(old(selectedSport))) ==> request == None && unchanged(this)
      ensures Truthy(old(uploadedImage)) && Truthy(old(selectedSport)) ==>
        && request == Some(GenRequest(old(uploadedImage).value, old(selectedSport).value))
        && SettledBy(outcome, Sport, old(generatedImages))
        && uploadedImage == old(uploadedImage) && selectedSport == old(selectedSport)
    {
      if !Truthy(uploadedImage) || !Truthy(selectedSport) {
        return None;
      }
      BeginGenerating();
      request := Some(GenRequest(uploadedImage.value, selectedSport.value));
      FinishGeneration(outcome, Sport);
    }

    /** The generate button as evidently intended: as `HandleGenerate`,
        except that with a sport chosen but no photo it moves to the upload
        step, from where the chosen file is sent at once. */
    method HandleGenerateIntended(outcome: GenOutcome) returns (request: Option<GenRequest>)
      requires Valid()
      modifies this
      ensures Valid()
      ensures Truthy(old(selectedSport)) && !Truthy(old(uploadedImage)) ==>
        && request == None && step == Upload
        && uploadedImage == old(uploadedImage) && selectedSport == old(selectedSport)
        && generatedImages == old(generatedImages) && error == old(error)
      ensures !Truthy(old(selectedSport)) ==> request == None && unchanged(this)
      ensures Truthy(old(uploadedImage)) && Truthy(old(selectedSport)) ==>
        && request == Some(GenRequest(old(uploadedImage).value, old(selectedSport).value))
        && SettledBy(outcome, Sport, old(generatedImages))
        && uploadedImage == old(uploadedImage) && selectedSport == old(selectedSport)
    {
      if Truthy(selectedSport) && !Truthy(uploadedImage) {
        step := Upload;
        return None;
      }
      request := HandleGenerate(outcome);
    }

    /** The remove button on the photo preview: only the photo is dropped,
        and the wizard goes back to the upload step. */
    method RemovePhoto()
      requires Valid()
      modifies this
      ensures Valid()
      ensures step == Upload && uploadedImage == None
      ensures selectedSport == old(selectedSport) && generatedImages == old(generatedImages)
      ensures error == old(error)
    {
      uploadedImage := None;
      step := Upload;
    }

    /** "Create Another Portrait": back to the upload step with no photo, no
        sport and no portrait; the error is left as it was. */
    method Reset()
      requires Valid()
      modifies this
      ensures Valid()
      ensures step == Upload && uploadedImage == None && selectedSport == None
      ensures generatedImages == [] && error == old(error)
    {
      step := Upload;
      uploadedImage := None;
      selectedSport := None;
      generatedImages := [];
    }

    /** Whether the page renders `c` so that it can be pressed: the file
        input and the drop area only on the upload step; the sport buttons and
        the generate button, which is disabled while no sport is chosen, only
        on the sport step, where the remove button exists only over a photo;
        "Create Another Portrait" only on the result step; nothing while the
        portrait is being generated. */
    predicate Offers(c: Control)
      reads this
    {
      match c
      case ChooseFile(_) => step == Upload
      case DropFiles(_) => step == Upload
      case PickSport(i) => step == Sport && i < |SportOptions|
      case Generate => step == Sport && Truthy(selectedSport)
      case RemovePhotoButton => step == Sport && Truthy(uploadedImage)
      case CreateAnother => step == Result
    }

    /** Pressing a control the page offers runs the handler it is wired to,
        with that handler's effect. In particular, on the sport step without
        a photo every control on offer keeps the wizard there, without a
        photo, and makes no request. */
    method Press(c: Control, outcome: GenOutcome) returns (request: Option<GenRequest>)
      requires Valid() && Offers(c)
      modifies this
      ensures Valid()
      ensures c.DropFiles? && c.files == [] ==> request == None && unchanged(this)
      ensures FileOf(c).Some? && !StartsWith(FileOf(c).value.mimeType, "image/") ==>
        request == None && unchanged(this)
      ensures FileOf(c).Some? && StartsWith(FileOf(c).value.mimeType, "image/") ==>
        uploadedImage == Some(FileOf(c).value.dataUrl) && selectedSport == old(selectedSport)
      ensures FileOf(c).Some? && StartsWith(FileOf(c).value.mimeType, "image/") && !Truthy(old(selectedSport)) ==>
        && request == None && step == Sport
        && generatedImages == old(generatedImages) && error == old(error)
      ensures FileOf(c).Some? && StartsWith(FileOf(c).value.mimeType, "image/") && Truthy(old(selectedSport)) ==>
        && request == Some(GenRequest(FileOf(c).value.dataUrl, old(selectedSport).value))
        && SettledBy(outcome, Upload, old(generatedImages))
      ensures c.PickSport? ==>
        && request == None && selectedSport == Some(SportOptions[c.index].id)
        && step == old(step) && uploadedImage == old(uploadedImage)
        && generatedImages == old(generatedImages) && error == old(error)
      ensures c.Generate? && !Truthy(old(uploadedImage)) ==> request == None && unchanged(this)
      ensures c.Generate? && Truthy(old(uploadedImage)) ==>
        && request == Some(GenRequest(old(uploadedImage).value, old(selectedSport).value))
        && SettledBy(outcome, Sport, old(generatedImages))
        && uploadedImage == old(uploadedImage) && selectedSport == old(selectedSport)
      ensures c.RemovePhotoButton? ==>
        && request == None && step == Upload && uploadedImage == None
        && selectedSport == old(selectedSport) && generatedImages == old(generatedImages) && error == old(error)
      ensures c.CreateAnother? ==>
        && request == None && step == Upload && uploadedImage == None && selectedSport == None
        && generatedImages == [] && error == old(error)
      ensures old(step) == Sport && old(uploadedImage) == None ==>
        step == Sport && uploadedImage == None && request == None
    {
      request := None;
      match c
      case ChooseFile(file) => request := HandleFile(file, outcome);
      case DropFiles(files) => request := HandleDrop(files, outcome);
      case PickSport(i) => SelectSport(i);
      case Generate => request := HandleGenerate(outcome);
      case RemovePhotoButton => RemovePhoto();
      case CreateAnother => Reset();
    }
  }

  // ---- entering without a sport ----------------------------------------

  /** As written, a visitor who opens the page without a sport parameter is
      stuck: whatever controls they press, in any order, the wizard stays on
      the sport step with no photo and no request is ever made. Presses of
      controls the page does not show at that moment have no effect. */
  method NoSportParamDeadEnd(presses: seq<Control>, outcomes: seq<GenOutcome>)
    returns (step: Step, photo: Option<string>, requests: seq<Option<GenRequest>>)
    requires |outcomes| == |presses|
    ensures step == Sport && photo == None
    ensures |requests| == |presses| && forall k :: 0 <= k < |requests| ==> requests[k] == None
  {
    var w := new Wizard(None);
    requests := [];
    var k := 0;
    while k < |presses|
      invariant 0 <= k <= |presses|
      invariant w.Valid() && w.step == Sport && w.uploadedImage == None
      invariant |requests| == k && forall j :: 0 <= j < k ==> requests[j] == None
    {
      var request := None;
      if w.Offers(presses[k]) {
        request := w.Press(presses[k], outcomes[k]);
      }
      requests := requests + [request];
      k := k + 1;
    }
    step, photo := w.step, w.uploadedImage;
  }

  /** With the intended generate button the same visitor reaches the upload
      step, and the photo they then choose is sent with the sport they
      picked; every press on the way is of a control the page shows. */
  method NoSportParamReachesGeneration(index: nat, file: ImageFile, outcome: GenOutcome)
    returns (request: Option<GenRequest>)
    requires index < |SportOptions| && StartsWith(file.mimeType, "image/")
    ensures request == Some(GenRequest(file.dataUrl, SportOptions[index].id))
  {
    var w := new Wizard(None);
    assert w.Offers(PickSport(index));
    w.SelectSport(index);
    assert w.Offers(Generate);
    var _ := w.HandleGenerateIntended(outcome);
    assert w.Offers(ChooseFile(file));
    request := w.HandleFile(file, outcome);
  }
}
