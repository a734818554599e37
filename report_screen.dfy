/** Filing a waste report: the photo from the gallery or the camera, the description, the
    location acquired on opening, and the submit checks, run in order. */
module ReportScreen {
  import opened Common
  import opened Text

  /** The outcome of a submit. */
  datatype Outcome = NoPhoto | NoDescription | NoLocation | Accepted

  /** `handleSubmit`'s checks, first failure winning: a photo, a description that is not
      blank once trimmed, and a location. */
  function Check(photo: Option<string>, description: string, location: Option<Coordinate>): (r: Outcome)
    ensures r == NoPhoto <==> !Present(photo)
    ensures r == NoDescription <==> Present(photo) && Trim(description) == ""
    ensures r == NoLocation <==> Present(photo) && Trim(description) != "" && location.None?
    ensures r == Accepted <==> Present(photo) && Trim(description) != "" && location.Some?
  {
    if !Present(photo) then NoPhoto
    else if Trim(description) == "" then NoDescription
    else if location.None? then NoLocation
    else Accepted
  }

  /** A description made only of white space (spaces, tabs, line breaks, no-break spaces...)
      is refused once a photo is there, whatever the location. */
  lemma BlankDescriptionRefused(photo: Option<string>, description: string, location: Option<Coordinate>)
    requires Present(photo)
    requires forall i :: 0 <= i < |description| ==> IsWhiteSpace(description[i])
    ensures Check(photo, description, location) == NoDescription
  {
    TrimEmptyIff(description);
  }

  /** A description with any visible character passes that check. */
  lemma VisibleDescriptionAccepted(photo: Option<string>, description: string, c: Coordinate, k: int)
    requires Present(photo) && 0 <= k < |description| && !IsWhiteSpace(description[k])
    ensures Check(photo, description, Some(c)) == Accepted
  {
    TrimEmptyIff(description);
  }

  /** The location refresh button accepts a press only when no request is running. */
  function RefreshEnabled(isGettingLocation: bool): (enabled: bool)
    ensures enabled <==> !isGettingLocation
  {
    !isGettingLocation
  }

  /** The submit button is disabled while loading, and says so. */
  function SubmitLabel(isLoading: bool): (caption: string)
    ensures caption == "Submitting..." <==> isLoading
    ensures caption == "Submit Report" <==> !isLoading
  {
    if isLoading then "Submitting..." else "Submit Report"
  }

  /** How a location request ends: permission refused, a fix, or a thrown error. */
  datatype LocationOutcome = Denied | Located(coordinate: Coordinate) | LocationFailed

  /** The screen's state. */
  class ReportScreen {
    var photo: Option<string>
    var description: string
    var location: Option<Coordinate>
    var isLoading: bool
    var isGettingLocation: bool

    constructor ()
      ensures photo.None? && description == "" && location.None?
      ensures !isLoading && !isGettingLocation
    {
      photo, description, location := None, "", None;
      isLoading, isGettingLocation := false, false;
    }

    /** The start of `getCurrentLocation`: the indicator comes on. */
    method BeginGetLocation()
      modifies this
      ensures isGettingLocation
      ensures photo == old(photo) && description == old(description) && location == old(location)
      ensures isLoading == old(isLoading)
    {
      isGettingLocation := true;
    }

    /** The end of `getCurrentLocation`: a fix is stored; on every path, denial and errors
        included, the indicator goes off. */
    method FinishGetLocation(outcome: LocationOutcome)
      modifies this
      ensures !isGettingLocation
      ensures location == if outcome.Located? then Some(outcome.coordinate) else old(location)
      ensures photo == old(photo) && description == old(description) && isLoading == old(isLoading)
    {
      if outcome.Located? {
        location := Some(outcome.coordinate);
      }
      isGettingLocation := false;
    }

    /** `pickImage`: only a picked image replaces the photo. */
    method PickImage(result: PickResult)
      modifies this
      ensures photo == if result.Picked? then Some(result.uri) else old(photo)
      ensures description == old(description) && location == old(location)
      ensures isLoading == old(isLoading) && isGettingLocation == old(isGettingLocation)
    {
      if result.Picked? {
        photo := Some(result.uri);
      }
    }

    /** `takePhoto`: without camera permission nothing happens; otherwise as `pickImage`. */
    method TakePhoto(granted: bool, result: PickResult)
      modifies this
      ensures photo == if granted && result.Picked? then Some(result.uri) else old(photo)
      ensures description == old(description) && location == old(location)
      ensures isLoading == old(isLoading) && isGettingLocation == old(isGettingLocation)
    {
      if !granted {
        return;
      }
      PickImage(result);
    }

    /** Typing the description. */
    method SetDescription(text: string)
      modifies this
      ensures description == text && photo == old(photo) && location == old(location)
      ensures isLoading == old(isLoading) && isGettingLocation == old(isGettingLocation)
    {
      description := text;
    }

    /** `handleSubmit`: the checks in order; loading starts only when all of them pass. */
    method HandleSubmit() returns (outcome: Outcome)
      modifies this
      ensures outcome == Check(old(photo), old(description), old(location))
      ensures isLoading == (outcome == Accepted || old(isLoading))
      ensures photo == old(photo) && description == old(description) && location == old(location)
      ensures isGettingLocation == old(isGettingLocation)
    {
      if !Present(photo) {
        return NoPhoto;
      }
      if Trim(description) == "" {
        return NoDescription;
      }
      if location.None? {
        return NoLocation;
      }
      isLoading := true;
      outcome := Accepted;
    }

    /** The submission timer fires: loading ends, and OK on its alert goes back. */
    method CompleteSubmit() returns (next: Nav)
      modifies this
      ensures !isLoading && next == GoBack
      ensures photo == old(photo) && description == old(description) && location == old(location)
      ensures isGettingLocation == old(isGettingLocation)
    {
      isLoading := false;
      next := GoBack;
    }
  }
}
