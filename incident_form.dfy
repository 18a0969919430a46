/** The incident report form: the submit handler's checks and payload, the
    reset after a successful report, and the size check on an attached image.
    The incidents service's answer and the file reader's result are inputs. */
module IncidentForm {
  import opened Common

  /** The body posted to the incidents service. */
  datatype Payload = Payload(incidentType: string, description: string, lat: real, lng: real, priority: string, image: string)

  /** A prepared submission: either an alert and nothing sent, or a payload. */
  datatype Prepared = Rejected(alert: string) | Ready(payload: Payload)

  /** A file chosen in the image input: its size in bytes and the data URL
      the reader produces for it. */
  datatype ImageFile = ImageFile(size: int, dataUrl: string)

  const DefaultType := "ACCIDENT"
  const DefaultPriority := "MEDIUM"
  const NoLocation := "Please click on map to select location"
  const NoType := "Please specify the incident type"
  const Reported := "Incident reported successfully"
  const ReportFailed := "Failed to report incident"
  const TooLarge := "File is too large. Max 5MB"
  const MaxImageBytes := 5000000

  /** The type reported: the free-text type when "OTHER" is selected. */
  function EffectiveType(selected: string, custom: string): (t: string)
    ensures selected == "OTHER" ==> t == custom
    ensures selected != "OTHER" ==> t == selected
  {
    if selected == "OTHER" then custom else selected
  }

  /** The checks of `submitIncident`, in order, and the payload they allow. */
  function PrepareIncident(location: Option<Location>, selected: string, custom: string,
                           description: string, priority: string, image: string): (r: Prepared)
    ensures location.None? ==> r == Rejected(NoLocation)
    ensures location.Some? && IsBlank(EffectiveType(selected, custom)) ==> r == Rejected(NoType)
    ensures r.Ready? <==> location.Some? && !IsBlank(EffectiveType(selected, custom))
    ensures r.Ready? ==>
      r.payload == Payload(EffectiveType(selected, custom), description, location.value.lat, location.value.lng, priority, image)
  {
    if location.None? then Rejected(NoLocation)
    else
      var finalType := EffectiveType(selected, custom);
      // `!finalType.trim()`, which holds exactly when the type is blank (TrimEmptyIffBlank)
      if IsBlank(finalType) then Rejected(NoType)
      else Ready(Payload(finalType, description, location.value.lat, location.value.lng, priority, image))
  }

  /** A custom type of only spaces is refused even though it is not empty. */
  lemma SpacesAreNoType(loc: Location, description: string, priority: string, image: string)
    ensures PrepareIncident(Some(loc), "OTHER", "   ", description, priority, image) == Rejected(NoType)
  {
  }

  /** The form's own state, and the map location it shares with its parent. */
  class ReportForm {
    var incidentType: string
    var customType: string
    var description: string
    var priority: string
    var image: string
    var location: Option<Location>

    /** The fields a successful report returns to. */
    predicate AtDefaults()
      reads this
    {
      && incidentType == DefaultType && customType == "" && description == ""
      && priority == DefaultPriority && image == ""
    }

    /** What submitting the form as it stands would prepare. */
    function Submission(): Prepared
      reads this
    {
      PrepareIncident(location, incidentType, customType, description, priority, image)
    }

    constructor (location: Option<Location>)
      ensures AtDefaults() && this.location == location
    {
      incidentType, customType, description := DefaultType, "", "";
      priority, image := DefaultPriority, "";
      this.location := location;
    }

    /** `submitIncident`, given whether the service accepted the report. A
        rejected or failed submission changes nothing; a successful one resets
        every field and clears the location. */
    method Submit(accepted: bool) returns (alert: string, sent: Option<Payload>)
      modifies this
      ensures old(Submission()).Rejected? ==> alert == old(Submission()).alert && sent.None?
      ensures old(Submission()).Ready? ==> sent == Some(old(Submission()).payload)
      ensures old(Submission()).Ready? && accepted ==> alert == Reported && AtDefaults() && location.None?
      ensures old(Submission()).Ready? && !accepted ==> alert == ReportFailed
      ensures old(Submission()).Rejected? || !accepted ==> unchanged(this)
    {
      match Submission()
      case Rejected(message) =>
        alert, sent := message, None;
      case Ready(payload) =>
        sent := Some(payload);
        if accepted {
          alert := Reported;
          description := "";
          incidentType := DefaultType;
          customType := "";
          priority := DefaultPriority;
          image := "";
          location := None;
        } else {
          alert := ReportFailed;
        }
    }

    /** `handleImageUpload`: no file does nothing; a file over the limit is
        refused and the current image kept; otherwise the image becomes the
        file's data URL. */
    method HandleImageUpload(file: Option<ImageFile>) returns (alert: Option<string>)
      modifies this`image
      ensures file.Some? && file.value.size > MaxImageBytes ==> alert == Some(TooLarge) && image == old(image)
      ensures file.None? ==> alert.None? && image == old(image)
      ensures file.Some? && file.value.size <= MaxImageBytes ==> alert.None? && image == file.value.dataUrl
    {
      alert := None;
      if file.Some? {
        if file.value.size > MaxImageBytes {
          alert := Some(TooLarge);
          return;
        }
        image := file.value.dataUrl;
      }
    }
  }
}
