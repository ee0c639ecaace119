/**
 * The administrator's form for a new resource (src/pages/Admin/AddResource.jsx):
 * the payload built from the form's text fields, the comma-separated
 * features parser the edit form shares, and the submit.
 */
module AddResource {
  import opened Client
  import Js

  const PlaceholderImage := "https://via.placeholder.com/800x600?text=No+Image+Provided"

  /** The form: every field holds the text typed into it. */
  datatype Form = Form(
    id: string, name: string, category: string, subCategory: string,
    capacity: string, building: string, zone: string, floor: string,
    features: string, image: string)

  const InitialForm := Form("", "", "Academic", "", "", "", "", "0", "", "")

  // ----- the features parser -----

  /** `.map(f => f.trim())`: each entry of the result is the trim of the
      entry at the same place. */
  function TrimEach(xs: seq<string>): (r: seq<string>)
    ensures |r| == |xs|
    ensures forall i :: 0 <= i < |xs| ==> r[i] == Js.Trim(xs[i])
    decreases |xs|
  {
    if xs == [] then [] else [Js.Trim(xs[0])] + TrimEach(xs[1..])
  }

  /** `.filter(f => f)`: a string is kept when it is not empty. */
  predicate NonEmpty(f: string) {
    f != ""
  }

  /** A feature as the parser can return it. */
  predicate WellFormedFeature(x: string) {
    x != "" && Js.IsTrimmed(x) && ',' !in x
  }

  /** The trimmed pieces of a split at commas hold no comma and no blank
      at either end. */
  lemma {:induction false} TrimmedPieces(pieces: seq<string>)
    requires forall i :: 0 <= i < |pieces| ==> ',' !in pieces[i]
    ensures forall i :: 0 <= i < |pieces| ==> Js.IsTrimmed(TrimEach(pieces)[i]) && ',' !in TrimEach(pieces)[i]
  {
    forall i | 0 <= i < |pieces|
      ensures Js.IsTrimmed(TrimEach(pieces)[i]) && ',' !in TrimEach(pieces)[i]
    {
      Js.TrimWithout(pieces[i], ',');
    }
  }

  /** What the filter keeps of pieces without blanks at the ends and
      without commas is well formed. */
  lemma {:induction false} KeptWellFormed(trimmed: seq<string>)
    requires forall i :: 0 <= i < |trimmed| ==> Js.IsTrimmed(trimmed[i]) && ',' !in trimmed[i]
    ensures forall i :: 0 <= i < |Js.Filter(trimmed, NonEmpty)| ==> WellFormedFeature(Js.Filter(trimmed, NonEmpty)[i])
  {
    var r := Js.Filter(trimmed, NonEmpty);
    forall i | 0 <= i < |r|
      ensures WellFormedFeature(r[i])
    {
      assert r[i] in trimmed && NonEmpty(r[i]);
    }
  }

  /** `features.split(',').map(f => f.trim()).filter(f => f)`: every feature
      returned is non-empty, has no blank at either end and no comma. */
  function ParseFeatures(s: string): (r: seq<string>)
    ensures forall i :: 0 <= i < |r| ==> WellFormedFeature(r[i])
  {
    var pieces := Js.Split(s, ',');
    TrimmedPieces(pieces);
    KeptWellFormed(TrimEach(pieces));
    Js.Filter(TrimEach(pieces), NonEmpty)
  }

  /** The features keep the order in which they were typed. */
  lemma {:induction false} FeaturesInOrder(s: string)
    ensures Js.IsSubsequence(ParseFeatures(s), TrimEach(Js.Split(s, ',')))
  {
    Js.FilterIsSubsequence(TrimEach(Js.Split(s, ',')), NonEmpty);
  }

  /** Some comma-separated piece of `s` trims to `x`. */
  predicate SomePieceTrimsTo(s: string, x: string) {
    exists i :: 0 <= i < |Js.Split(s, ',')| && Js.Trim(Js.Split(s, ',')[i]) == x
  }

  /** A feature is kept exactly when it is non-empty and some
      comma-separated piece trims to it. */
  lemma {:induction false} FeatureKeptIff(s: string, x: string)
    ensures x in ParseFeatures(s) <==> x != "" && SomePieceTrimsTo(s, x)
  {
    var pieces := Js.Split(s, ',');
    var trimmed := TrimEach(pieces);
    assert ParseFeatures(s) == Js.Filter(trimmed, NonEmpty);
    if x in trimmed {
      var i :| 0 <= i < |trimmed| && trimmed[i] == x;
    }
    if SomePieceTrimsTo(s, x) {
      var i :| 0 <= i < |pieces| && Js.Trim(pieces[i]) == x;
      assert trimmed[i] == x;
    }
  }

  /** `[' '] + y` for every entry `y`: the pieces after the first that a
      split at commas of a ", "-joined list produces. */
  function Blanked(ys: seq<string>): (r: seq<string>)
    ensures |r| == |ys|
    decreases |ys|
  {
    if ys == [] then [] else [[' '] + ys[0]] + Blanked(ys[1..])
  }

  /** Splitting a list joined with ", " at commas: the first entry, then
      the others with the blank that followed their comma. */
  lemma {:induction false} SplitJoinBlanked(xs: seq<string>)
    requires |xs| >= 1
    requires forall i :: 0 <= i < |xs| ==> ',' !in xs[i]
    ensures Js.Split(Js.Join(xs, ", "), ',') == [xs[0]] + Blanked(xs[1..])
    decreases |xs|
  {
    if |xs| == 1 {
      Js.SplitFree(xs[0], ',');
    } else {
      var rest := Js.Join(xs[1..], ", ");
      assert Js.Join(xs, ", ") == xs[0] + [','] + ([' '] + rest);
      Js.SplitCons(xs[0], [' '] + rest, ',');
      SplitJoinBlanked(xs[1..]);
      assert ([' '] + rest)[1..] == rest;
      assert xs[1..][1..] == xs[2..];
    }
  }

  /** Trimming blank-prefixed trimmed entries gives the entries back. */
  lemma {:induction false} TrimBlanked(ys: seq<string>)
    requires forall i :: 0 <= i < |ys| ==> Js.IsTrimmed(ys[i])
    ensures TrimEach(Blanked(ys)) == ys
    decreases |ys|
  {
    if ys != [] {
      Js.TrimLeadingBlank(ys[0]);
      Js.TrimTrimmed(ys[0]);
      TrimBlanked(ys[1..]);
      var b := Blanked(ys);
      assert b[1..] == Blanked(ys[1..]);
      assert ys == [ys[0]] + ys[1..];
    }
  }

  lemma {:induction false} TrimEachCons(x: string, ys: seq<string>)
    ensures TrimEach([x] + ys) == [Js.Trim(x)] + TrimEach(ys)
  {
    assert ([x] + ys)[1..] == ys;
  }

  /** Trimming the pieces of a list joined with ", " gives the list back. */
  lemma {:induction false} TrimSplitJoin(xs: seq<string>)
    requires |xs| >= 1
    requires forall i :: 0 <= i < |xs| ==> Js.IsTrimmed(xs[i]) && ',' !in xs[i]
    ensures TrimEach(Js.Split(Js.Join(xs, ", "), ',')) == xs
  {
    var x, rest := xs[0], xs[1..];
    assert xs == [x] + rest;
    SplitJoinBlanked(xs);
    TrimEachCons(x, Blanked(rest));
    Js.TrimTrimmed(x);
    TrimBlanked(rest);
  }

  /** Parsing a list of well-formed features joined with ", " gives the list
      back; the empty list gives the empty string, which parses to no
      features. */
  lemma {:induction false} ParseJoin(xs: seq<string>)
    requires forall i :: 0 <= i < |xs| ==> WellFormedFeature(xs[i])
    ensures ParseFeatures(Js.Join(xs, ", ")) == xs
  {
    if xs == [] {
      assert Js.Split("", ',') == [""];
      assert TrimEach([""]) == [""];
      assert Js.Filter([""], NonEmpty) == [];
    } else {
      TrimSplitJoin(xs);
      Js.FilterKeepsAll(xs, NonEmpty);
    }
  }

  // ----- the payload -----

  datatype Location = Location(zone: string, building: string, floor: Js.JsNumber)

  /** The body of POST /resources. */
  datatype Payload = Payload(
    id: string, name: string, category: string, subCategory: string,
    capacity: Js.JsNumber, location: Location,
    features: seq<string>, images: seq<string>, status: string)

  /** The payload: the text fields as typed, capacity and floor through
      `Number`, the parsed features, the one image or the placeholder when
      none was given, and the status "Active". */
  function BuildPayload(f: Form): (p: Payload)
    ensures p.id == f.id && p.name == f.name && p.category == f.category && p.subCategory == f.subCategory
    ensures p.location.zone == f.zone && p.location.building == f.building
    ensures p.capacity == Js.ToNumber(f.capacity) && p.location.floor == Js.ToNumber(f.floor)
    ensures p.features == ParseFeatures(f.features)
    ensures f.image != "" ==> p.images == [f.image]
    ensures f.image == "" ==> p.images == [PlaceholderImage]
    ensures p.status == "Active"
  {
    Payload(
      f.id, f.name, f.category, f.subCategory, Js.ToNumber(f.capacity),
      Location(f.zone, f.building, Js.ToNumber(f.floor)),
      ParseFeatures(f.features),
      if f.image != "" then [f.image] else [PlaceholderImage],
      "Active")
  }

  /** A capacity and a floor typed as digits are sent as the numbers they
      spell; left empty they are sent as 0. */
  lemma DigitsSentAsNumbers(f: Form)
    requires Js.AllDigits(f.capacity) && Js.AllDigits(f.floor)
    ensures BuildPayload(f).capacity == Js.Int(if f.capacity == "" then 0 else Js.DigitsValue(f.capacity))
    ensures BuildPayload(f).location.floor == Js.Int(if f.floor == "" then 0 else Js.DigitsValue(f.floor))
  {
    Js.DigitsToNumber(f.capacity);
    Js.DigitsToNumber(f.floor);
  }

  /** The form as first shown sends floor 0, capacity 0, no features and
      the placeholder image. */
  lemma InitialPayload()
    ensures BuildPayload(InitialForm).capacity == Js.Int(0)
    ensures BuildPayload(InitialForm).location.floor == Js.Int(0)
    ensures BuildPayload(InitialForm).features == []
    ensures BuildPayload(InitialForm).images == [PlaceholderImage]
  {
    DigitsSentAsNumbers(InitialForm);
    assert "0"[..0] == "";
    ParseJoin([]);
  }

  // ----- the submit -----

  /** The part of the reply the page reads: `data.success`. */
  datatype CreateReply = CreateReply(success: bool)

  datatype Submission = Submission(sent: Payload, events: seq<Event>)

  /** `handleSubmit`: the payload is sent; a reply reporting success toasts
      and goes back to /admin, one that does not leaves the page as it is,
      and a failed call toasts the server's message or a fallback. */
  function Submit(f: Form, response: Outcome<CreateReply>): (s: Submission)
    ensures s.sent == BuildPayload(f)
    ensures s.events == SubmitEvents(response)
    ensures forall i :: 0 <= i < |s.sent.features| ==> WellFormedFeature(s.sent.features[i])
    ensures s.sent.status == "Active" && |s.sent.images| == 1
    ensures Navigate("/admin") in s.events <==> response.Reply? && response.body.success
  {
    Submission(BuildPayload(f), SubmitEvents(response))
  }

  /** What the page does around the POST, given the server's answer. */
  function SubmitEvents(response: Outcome<CreateReply>): (events: seq<Event>)
    ensures |events| >= 1 && events[0] == Request("POST", "/resources")
    ensures Navigate("/admin") in events <==> response.Reply? && response.body.success
    ensures response.Reply? && response.body.success ==>
      events == [Request("POST", "/resources"), Toast(Success, "Resource created successfully!"), Navigate("/admin")]
    ensures response.Reply? && !response.body.success ==> events == [Request("POST", "/resources")]
    ensures response.Failure? ==>
      events == [Request("POST", "/resources"), Toast(Error, MessageOr(response.error, "Failed to create resource"))]
  {
    var request := Request("POST", "/resources");
    match response
    case Reply(r) =>
      if r.success then [request, Toast(Success, "Resource created successfully!"), Navigate("/admin")]
      else [request]
    case Failure(e) => [request, Toast(Error, MessageOr(e, "Failed to create resource"))]
  }
}
