/**
 * The administrator's edit form (src/pages/Admin/UpdateResource.jsx): the
 * stored resource is loaded into the form, with a default for every
 * missing or empty field, and the form is sent back as a PUT. The features
 * are shown joined with ", " and read back with the parser of the create
 * form.
 */
module UpdateResource {
  import opened Client
  import Js
  import AddResource

  /** The statuses the form's select offers. */
  const Statuses := ["Active", "Maintenance", "InActive"]

  // ----- the stored resource, as the GET reply carries it -----

  datatype StoredLocation = StoredLocation(building: Option<string>, zone: Option<string>, floor: Option<int>)

  /** A resource as stored; every field the page reads may be missing. */
  datatype StoredResource = StoredResource(
    name: Option<string>, category: Option<string>, subCategory: Option<string>,
    capacity: Option<int>, location: Option<StoredLocation>,
    features: Option<seq<string>>, images: Option<seq<string>>, status: Option<string>)

  /** The part of the GET reply the page reads: `data.resource`. */
  datatype ResourceReply = ResourceReply(resource: Option<StoredResource>)

  // ----- the form -----

  /** What a numeric field holds: the text typed into it, or the number
      the stored resource put there. */
  datatype FieldValue = Text(text: string) | Num(n: int)

  datatype Form = Form(
    name: string, category: string, subCategory: string, capacity: FieldValue,
    building: string, zone: string, floor: FieldValue,
    features: string, image: string, status: string)

  const InitialForm := Form("", "Academic", "", Text(""), "", "", Text(""), "", "", "Active")

  /** An optional number as the JavaScript value it is: `undefined` when absent. */
  function NumValue(x: Option<int>): Js.Value<()> {
    match x
    case Some(n) => Js.Num(n)
    case None => Js.Undefined
  }

  /** `x || 0` on a number that may be missing. */
  function NumOr(x: Option<int>): (n: int)
    ensures x.Some? ==> n == x.value
    ensures x.None? ==> n == 0
    ensures Js.Or(NumValue(x), Js.Num(0)) == Js.Num(n)
    ensures n == 0 || x == Some(n)
  {
    if x.Some? then x.value else 0
  }

  /** The stored location's field, or `None` when the location is missing
      (`res.location?.building`). */
  function LocationBuilding(l: Option<StoredLocation>): Option<string> {
    if l.Some? then l.value.building else None
  }

  function LocationZone(l: Option<StoredLocation>): Option<string> {
    if l.Some? then l.value.zone else None
  }

  function LocationFloor(l: Option<StoredLocation>): Option<int> {
    if l.Some? then l.value.floor else None
  }

  /** `res.images?.[0]`. */
  function FirstImage(images: Option<seq<string>>): Option<string> {
    if images.Some? && |images.value| > 0 then Some(images.value[0]) else None
  }

  /** The form filled from a stored resource: a missing or empty text
      field becomes '' (the category "Academic", the status "Active"), a
      missing or zero capacity '', a missing or zero floor 0, the features
      their list joined with ", ", and the image the first stored one. */
  function FormOf(res: StoredResource): (f: Form)
    ensures f.name == OrString(res.name, "") && f.subCategory == OrString(res.subCategory, "")
    ensures f.category == OrString(res.category, "Academic") && f.status == OrString(res.status, "Active")
    ensures f.building == OrString(LocationBuilding(res.location), "")
    ensures f.zone == OrString(LocationZone(res.location), "")
    ensures f.capacity == if NumOr(res.capacity) != 0 then Num(res.capacity.value) else Text("")
    ensures f.floor == Num(NumOr(LocationFloor(res.location)))
    ensures f.features == if res.features.Some? then Js.Join(res.features.value, ", ") else ""
    ensures f.image == OrString(FirstImage(res.images), "")
  {
    Form(
      OrString(res.name, ""), OrString(res.category, "Academic"), OrString(res.subCategory, ""),
      if res.capacity.Some? && res.capacity.value != 0 then Num(res.capacity.value) else Text(""),
      OrString(LocationBuilding(res.location), ""), OrString(LocationZone(res.location), ""),
      Num(NumOr(LocationFloor(res.location))),
      if res.features.Some? then Js.Join(res.features.value, ", ") else "",
      OrString(FirstImage(res.images), ""),
      OrString(res.status, "Active"))
  }

  datatype Loaded = Loaded(form: Form, events: seq<Event>)

  function ResourcePath(id: string): string {
    "/resources/" + id
  }

  /** `fetchResource`: a reply carrying a resource fills the form, one
      without leaves it as it was, and a failed call toasts and goes back
      to /admin. */
  function Load(id: string, form: Form, response: Outcome<ResourceReply>): (l: Loaded)
    ensures |l.events| >= 1 && l.events[0] == Request("GET", ResourcePath(id))
    ensures response.Reply? && response.body.resource.Some? ==> l.form == FormOf(response.body.resource.value)
    ensures !(response.Reply? && response.body.resource.Some?) ==> l.form == form
    ensures Navigate("/admin") in l.events <==> response.Failure?
    ensures response.Failure? ==>
      l.events == [Request("GET", ResourcePath(id)), Toast(Error, "Failed to load resource details."), Navigate("/admin")]
  {
    var request := Request("GET", ResourcePath(id));
    match response
    case Reply(r) =>
      if r.resource.Some? then Loaded(FormOf(r.resource.value), [request]) else Loaded(form, [request])
    case Failure(_) =>
      Loaded(form, [request, Toast(Error, "Failed to load resource details."), Navigate("/admin")])
  }

  // ----- the payload -----

  /** `Number(formData.capacity)` on whichever kind of value the field holds. */
  function NumberOf(v: FieldValue): (n: Js.JsNumber)
    ensures v.Num? ==> n == Js.Int(v.n)
    ensures v.Text? ==> n == Js.ToNumber(v.text)
  {
    match v
    case Num(n) => Js.Int(n)
    case Text(s) => Js.ToNumber(s)
  }

  /** The body of the PUT: no id, and unlike the create form no
      placeholder image and the status the form holds. */
  datatype Update = Update(
    name: string, category: string, subCategory: string,
    capacity: Js.JsNumber, location: AddResource.Location,
    features: seq<string>, images: seq<string>, status: string)

  /** The payload: text fields as held, capacity and floor through
      `Number`, the parsed features, the image alone or no image, and the
      status held. */
  function BuildPayload(f: Form): (p: Update)
    ensures p.name == f.name && p.category == f.category && p.subCategory == f.subCategory
    ensures p.location.zone == f.zone && p.location.building == f.building
    ensures p.capacity == NumberOf(f.capacity) && p.location.floor == NumberOf(f.floor)
    ensures p.features == AddResource.ParseFeatures(f.features)
    ensures |p.images| <= 1 && (p.images == [] <==> f.image == "")
    ensures f.image != "" ==> p.images[0] == f.image
    ensures p.status == f.status
  {
    Update(
      f.name, f.category, f.subCategory, NumberOf(f.capacity),
      AddResource.Location(f.zone, f.building, NumberOf(f.floor)),
      AddResource.ParseFeatures(f.features),
      if f.image != "" then [f.image] else [],
      f.status)
  }

  // ----- load, then save unchanged -----

  /** A feature list of well-formed features survives loading and saving
      unchanged; a resource without one is saved with none. */
  lemma {:induction false} FeaturesRoundTrip(res: StoredResource)
    requires res.features.Some? ==> forall i :: 0 <= i < |res.features.value| ==> AddResource.WellFormedFeature(res.features.value[i])
    ensures BuildPayload(FormOf(res)).features == if res.features.Some? then res.features.value else []
  {
    if res.features.Some? {
      AddResource.ParseJoin(res.features.value);
    } else {
      AddResource.ParseJoin([]);
    }
  }

  /** Capacity and floor survive loading and saving, a missing one coming
      back as 0. */
  lemma NumbersRoundTrip(res: StoredResource)
    ensures BuildPayload(FormOf(res)).capacity == Js.Int(NumOr(res.capacity))
    ensures BuildPayload(FormOf(res)).location.floor == Js.Int(NumOr(LocationFloor(res.location)))
  {
    Js.DigitsToNumber("");
  }

  /** Of the stored images only the first survives loading and saving, and
      none when it is missing or empty. */
  lemma ImagesRoundTrip(res: StoredResource)
    ensures res.images.Some? && |res.images.value| > 0 && res.images.value[0] != "" ==>
      BuildPayload(FormOf(res)).images == [res.images.value[0]]
    ensures !(res.images.Some? && |res.images.value| > 0 && res.images.value[0] != "") ==>
      BuildPayload(FormOf(res)).images == []
  {
  }

  /** A resource whose text fields are all present and non-empty is saved
      with those same fields. */
  lemma TextRoundTrip(res: StoredResource, loc: StoredLocation, name: string, category: string,
                      subCategory: string, building: string, zone: string, status: string)
    requires res.name == Some(name) && res.category == Some(category) && res.subCategory == Some(subCategory)
    requires res.location == Some(loc) && loc.building == Some(building) && loc.zone == Some(zone)
    requires res.status == Some(status)
    requires name != "" && category != "" && subCategory != "" && building != "" && zone != "" && status != ""
    ensures var p := BuildPayload(FormOf(res));
      p.name == name && p.category == category && p.subCategory == subCategory &&
      p.location.building == building && p.location.zone == zone && p.status == status
  {
  }

  /** A loaded form offers one of the select's statuses whenever the stored
      status is one of them or is missing. */
  lemma LoadedStatusOffered(res: StoredResource)
    requires res.status.None? || res.status.value in Statuses
    ensures FormOf(res).status in Statuses
  {
  }

  /** Without an image the create form sends the placeholder and the edit
      form sends no image at all. */
  lemma NoImageDiffers(f: Form, g: AddResource.Form)
    requires f.image == "" && g.image == ""
    ensures BuildPayload(f).images == []
    ensures AddResource.BuildPayload(g).images == [AddResource.PlaceholderImage]
  {
  }

  // ----- the submit -----

  function UpdatePath(id: string): string {
    "/resources/" + id + "/update"
  }

  datatype Saved = Saved(sent: Update, events: seq<Event>)

  /** `handleSubmit`: the payload is sent; any reply toasts and goes back
      to /admin, and a failed call toasts the server's message or a
      fallback. */
  function Save(id: string, f: Form, response: Outcome<()>): (s: Saved)
    ensures s.sent == BuildPayload(f)
    ensures s.events == SaveEvents(id, response)
    ensures forall i :: 0 <= i < |s.sent.features| ==> AddResource.WellFormedFeature(s.sent.features[i])
    ensures s.sent.status == f.status && |s.sent.images| <= 1
    ensures Navigate("/admin") in s.events <==> response.Reply?
  {
    Saved(BuildPayload(f), SaveEvents(id, response))
  }

  function SaveEvents(id: string, response: Outcome<()>): (events: seq<Event>)
    ensures |events| >= 1 && events[0] == Request("PUT", UpdatePath(id))
    ensures Navigate("/admin") in events <==> response.Reply?
    ensures response.Reply? ==>
      events == [Request("PUT", UpdatePath(id)), Toast(Success, "Resource updated successfully!"), Navigate("/admin")]
    ensures response.Failure? ==>
      events == [Request("PUT", UpdatePath(id)), Toast(Error, MessageOr(response.error, "Failed to update resource"))]
  {
    var request := Request("PUT", UpdatePath(id));
    match response
    case Reply(_) => [request, Toast(Success, "Resource updated successfully!"), Navigate("/admin")]
    case Failure(e) => [request, Toast(Error, MessageOr(e, "Failed to update resource"))]
  }
}
