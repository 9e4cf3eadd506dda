/** src/components/reporting/ReportIncident.tsx: the incident form. The
    checks of `handleSubmit` and the image list edits are functions; the
    form state and the submission sequence are a class. */
module ReportIncident {
  import opened Wrappers
  import opened Types

  /** Why `handleSubmit` refuses, in the order it checks. */
  datatype ValidationError = MissingDescription | NoCurrentLocation | MissingCoordinates

  /** The two text inputs of the manual location. */
  datatype ManualLocation = ManualLocation(latitude: string, longitude: string)

  /** `parseFloat`, a library call the model does not interpret. */
  type ParseFloat = string -> real

  /** An uploaded file; only its name reaches the report. */
  datatype ImageFile = ImageFile(name: string)

  /** The validation guards of `handleSubmit` and `finalLocation`. */
  function Validate(description: string, useCurrentLocation: bool, location: Option<Coordinates>,
                    manual: ManualLocation, parse: ParseFloat): (r: Result<Coordinates, ValidationError>)
    ensures r == Err(MissingDescription) <==> description == ""
    ensures r == Err(NoCurrentLocation) <==> description != "" && useCurrentLocation && location.None?
    ensures r == Err(MissingCoordinates) <==>
      description != "" && !useCurrentLocation && (manual.latitude == "" || manual.longitude == "")
    ensures r.Ok? && useCurrentLocation ==> location == Some(r.value)
    ensures r.Ok? && !useCurrentLocation ==>
      r.value == Coordinates(parse(manual.latitude), parse(manual.longitude))
  {
    if description == "" then Err(MissingDescription)
    else if useCurrentLocation && location.None? then Err(NoCurrentLocation)
    else if !useCurrentLocation && (manual.latitude == "" || manual.longitude == "") then Err(MissingCoordinates)
    else if useCurrentLocation then Ok(location.value)
    else Ok(Coordinates(parse(manual.latitude), parse(manual.longitude)))
  }

  /** The form passes exactly when the description is non-empty and the
      chosen location source is filled in. */
  lemma ValidateAccepts(description: string, useCurrentLocation: bool, location: Option<Coordinates>,
                        manual: ManualLocation, parse: ParseFloat)
    ensures Validate(description, useCurrentLocation, location, manual, parse).Ok? <==>
      description != "" &&
      (if useCurrentLocation then location.Some? else manual.latitude != "" && manual.longitude != "")
  {
  }

  /** The submit button's `disabled` condition. */
  predicate SubmitDisabled(isSubmitting: bool, useCurrentLocation: bool, location: Option<Coordinates>) {
    isSubmitting || (useCurrentLocation && location.None?)
  }

  /** An enabled button never meets the current-location refusal. */
  lemma EnabledSubmitHasLocation(description: string, useCurrentLocation: bool, location: Option<Coordinates>,
                                 manual: ManualLocation, parse: ParseFloat, isSubmitting: bool)
    requires !SubmitDisabled(isSubmitting, useCurrentLocation, location)
    ensures Validate(description, useCurrentLocation, location, manual, parse) != Err(NoCurrentLocation)
  {
  }

  /** `handleImageChange`: the selected files (`null` as `None`) are appended
      after the current ones; an empty selection changes nothing. */
  function AddImages(images: seq<ImageFile>, files: Option<seq<ImageFile>>): (r: seq<ImageFile>)
    ensures files.None? || files.value == [] ==> r == images
    ensures files.Some? ==> |r| == |images| + |files.value| && r[..|images|] == images && r[|images|..] == files.value
  {
    if files.Some? && |files.value| > 0 then images + files.value else images
  }

  /** `removeImage`: `prev.filter((_, i) => i !== index)`, walking the list
      with the index shifted at each step. */
  function RemoveImage(images: seq<ImageFile>, index: int): (r: seq<ImageFile>)
    ensures 0 <= index < |images| ==> r == images[..index] + images[index + 1..]
    ensures !(0 <= index < |images|) ==> r == images
  {
    if images == [] then []
    else if index == 0 then images[1..]
    else [images[0]] + RemoveImage(images[1..], index - 1)
  }

  /** Whether the parent passed an `onSuccess` callback, and whether it throws
      (the exception is caught by the `catch` block). */
  datatype Callback = NoCallback | Returns | Throws

  /** The payload the form would send. */
  datatype Report = Report(kind: DisasterType, description: string, location: Coordinates,
                           userId: string, imageNames: seq<string>)

  /** `user?.id || 'anonymous'`: an absent user or an empty id gives "anonymous". */
  function ReporterId(user: Option<User>): (id: string)
    ensures id != ""
    ensures user.Some? && user.value.id != "" ==> id == user.value.id
    ensures !(user.Some? && user.value.id != "") ==> id == "anonymous"
  {
    if user.Some? && user.value.id != "" then user.value.id else "anonymous"
  }

  function ImageNames(images: seq<ImageFile>): (names: seq<string>)
    ensures |names| == |images|
    ensures forall i :: 0 <= i < |images| ==> names[i] == images[i].name
  {
    if images == [] then [] else [images[0].name] + ImageNames(images[1..])
  }

  class ReportForm {
    var kind: DisasterType
    var description: string
    var useCurrentLocation: bool
    var manual: ManualLocation
    var images: seq<ImageFile>
    var isSubmitting: bool

    /** The initial form: earthquake, empty description, current location,
        empty coordinates, no images, not submitting. */
    constructor ()
      ensures kind == Earthquake && description == "" && useCurrentLocation
      ensures manual == ManualLocation("", "") && images == [] && !isSubmitting
    {
      kind := Earthquake;
      description := "";
      useCurrentLocation := true;
      manual := ManualLocation("", "");
      images := [];
      isSubmitting := false;
    }

    /** The first, synchronous part of `handleSubmit`: a refused form changes
        nothing; an accepted one builds the report and sets `isSubmitting`. */
    method BeginSubmit(location: Option<Coordinates>, user: Option<User>, parse: ParseFloat)
      returns (r: Result<Report, ValidationError>)
      modifies this
      ensures var v := Validate(old(description), old(useCurrentLocation), location, old(manual), parse);
        (v.Err? ==> r == Err(v.error)) &&
        (v.Ok? ==> r == Ok(Report(old(kind), old(description), v.value, ReporterId(user), ImageNames(old(images)))))
      ensures isSubmitting == (r.Ok? || old(isSubmitting))
      ensures kind == old(kind) && description == old(description) && useCurrentLocation == old(useCurrentLocation)
      ensures manual == old(manual) && images == old(images)
    {
      var v := Validate(description, useCurrentLocation, location, manual, parse);
      if v.Err? {
        return Err(v.error);
      }
      isSubmitting := true;
      r := Ok(Report(kind, description, v.value, ReporterId(user), ImageNames(images)));
    }

    /** The part after the simulated request: the form is reset, the callback
        runs if given, and `finally` clears `isSubmitting` whether or not the
        callback threw. */
    method FinishSubmit(callback: Callback) returns (calledBack: bool)
      modifies this
      ensures description == "" && images == [] && !isSubmitting
      ensures kind == old(kind) && useCurrentLocation == old(useCurrentLocation) && manual == old(manual)
      ensures calledBack <==> callback != NoCallback
    {
      description := "";
      images := [];
      calledBack := false;
      if callback != NoCallback {
        calledBack := true;
      }
      isSubmitting := false;
    }

    method HandleImageChange(files: Option<seq<ImageFile>>)
      modifies this
      ensures images == AddImages(old(images), files)
      ensures kind == old(kind) && description == old(description) && useCurrentLocation == old(useCurrentLocation)
      ensures manual == old(manual) && isSubmitting == old(isSubmitting)
    {
      images := AddImages(images, files);
    }

    method RemoveImageAt(index: int)
      modifies this
      ensures images == RemoveImage(old(images), index)
      ensures kind == old(kind) && description == old(description) && useCurrentLocation == old(useCurrentLocation)
      ensures manual == old(manual) && isSubmitting == old(isSubmitting)
    {
      images := RemoveImage(images, index);
    }
  }
}
