/**
 * app/admin/hotels/add/page.tsx: the "Add New Hotel" form. Its state is the
 * text of each input, a loading flag and an error message; a submit validates
 * the text, converts it into the JSON body of `POST /api/hotels`, and records
 * the outcome of the request. `Number(s)` and `Number.parseFloat(s)` are
 * parameters (`None` is `NaN`); the request itself is passed in as its outcome.
 */
module AddHotelForm {
  import opened Optional
  import opened Text
  import Seqs

  /** The text of every field of the form. */
  datatype FormData = FormData(
    name: string,
    location: string,
    description: string,
    price: string,
    rating: string,
    image: string,
    tags: string)

  /** The names of the fields, as the inputs' `name` attributes give them. */
  datatype FieldName = Name | Location | Description | Price | Rating | Image | Tags

  const InitialForm := FormData("", "", "", "", "0", "/placeholder.svg", "")

  function FieldValue(f: FormData, field: FieldName): string {
    match field
    case Name => f.name
    case Location => f.location
    case Description => f.description
    case Price => f.price
    case Rating => f.rating
    case Image => f.image
    case Tags => f.tags
  }

  /** `{ ...prev, [name]: value }`: one field replaced, every other one kept. */
  function WithField(f: FormData, field: FieldName, value: string): (r: FormData)
    ensures FieldValue(r, field) == value
    ensures forall other :: other != field ==> FieldValue(r, other) == FieldValue(f, other)
  {
    match field
    case Name => f.(name := value)
    case Location => f.(location := value)
    case Description => f.(description := value)
    case Price => f.(price := value)
    case Rating => f.(rating := value)
    case Image => f.(image := value)
    case Tags => f.(tags := value)
  }

  /** Some character of `s` is not whitespace, so `s.trim()` is truthy. */
  predicate HasText(s: string) {
    exists i :: 0 <= i < |s| && !IsSpace(s[i])
  }

  /** `x <= c`, `x < c` and `x > c` in JavaScript: every comparison with NaN is false. */
  predicate AtMost(x: Option<real>, c: real) {
    x.Some? && x.value <= c
  }

  predicate Below(x: Option<real>, c: real) {
    x.Some? && x.value < c
  }

  predicate Above(x: Option<real>, c: real) {
    x.Some? && x.value > c
  }

  /**
   * `validateForm`: the message of the first rule the form breaks, in the
   * order name, location, price, rating; `None` when it breaks none.
   */
  function ValidateForm(f: FormData, number: string -> Option<real>): Option<string> {
    if Trim(f.name) == "" then Some("Hotel name is required")
    else if Trim(f.location) == "" then Some("Location is required")
    else if f.price == "" || AtMost(number(f.price), 0.0) then Some("Valid price is required")
    else if Below(number(f.rating), 0.0) || Above(number(f.rating), 5.0) then
      Some("Rating must be between 0 and 5")
    else None
  }

  /** The form passes exactly when it breaks none of the four rules. */
  lemma ValidateAccepts(f: FormData, number: string -> Option<real>)
    ensures ValidateForm(f, number) == None <==>
              && HasText(f.name)
              && HasText(f.location)
              && f.price != "" && !AtMost(number(f.price), 0.0)
              && !Below(number(f.rating), 0.0) && !Above(number(f.rating), 5.0)
  {
    TrimEmpty(f.name);
    TrimEmpty(f.location);
  }

  /** Each message is reported exactly when its rule is the first one broken. */
  lemma ValidateFirstFailure(f: FormData, number: string -> Option<real>)
    ensures ValidateForm(f, number) == Some("Hotel name is required") <==> !HasText(f.name)
    ensures ValidateForm(f, number) == Some("Location is required") <==>
              HasText(f.name) && !HasText(f.location)
    ensures ValidateForm(f, number) == Some("Valid price is required") <==>
              HasText(f.name) && HasText(f.location)
              && (f.price == "" || AtMost(number(f.price), 0.0))
    ensures ValidateForm(f, number) == Some("Rating must be between 0 and 5") <==>
              HasText(f.name) && HasText(f.location)
              && f.price != "" && !AtMost(number(f.price), 0.0)
              && (Below(number(f.rating), 0.0) || Above(number(f.rating), 5.0))
  {
    TrimEmpty(f.name);
    TrimEmpty(f.location);
  }

  /**
   * A price or a rating that is not a number compares false both ways, so it
   * passes the checks meant to reject it.
   */
  lemma NotANumberPasses(f: FormData, number: string -> Option<real>)
    requires HasText(f.name) && HasText(f.location) && f.price != ""
    requires number(f.price) == None && number(f.rating) == None
    ensures ValidateForm(f, number) == None
  {
    ValidateAccepts(f, number);
  }

  /** The untouched form is rejected for its empty name. */
  lemma InitialFormRejected(number: string -> Option<real>)
    ensures ValidateForm(InitialForm, number) == Some("Hotel name is required")
  {
  }

  /** `tag` survives `.filter(Boolean)`. */
  predicate NonEmpty(tag: string) {
    tag != ""
  }

  function TrimAll(parts: seq<string>): (r: seq<string>)
    ensures |r| == |parts|
    ensures forall i :: 0 <= i < |parts| ==> r[i] == Trim(parts[i])
  {
    seq(|parts|, i requires 0 <= i < |parts| => Trim(parts[i]))
  }

  /** `tags.split(",").map((tag) => tag.trim()).filter(Boolean)`. */
  function ParseTags(s: string): seq<string> {
    Seqs.Filter(TrimAll(Split(s, ',')), NonEmpty)
  }

  /** What the parse produces: non-empty, comma-free, with no whitespace at either end. */
  predicate WellFormedTag(tag: string) {
    tag != "" && ',' !in tag && Trimmed(tag)
  }

  /** A trimmed piece of a comma split that is not empty is a well-formed tag. */
  lemma TrimmedPieceWellFormed(piece: string)
    requires ',' !in piece && Trim(piece) != ""
    ensures WellFormedTag(Trim(piece))
  {
    TrimIsTrimmed(piece);
    if ',' in Trim(piece) {
      TrimChars(piece, ',');
    }
  }

  /** The non-empty trimmed pieces of comma-free pieces are well-formed tags. */
  lemma PiecesWellFormed(parts: seq<string>)
    requires forall k :: 0 <= k < |parts| ==> ',' !in parts[k]
    ensures forall i :: 0 <= i < |Seqs.Filter(TrimAll(parts), NonEmpty)| ==>
              WellFormedTag(Seqs.Filter(TrimAll(parts), NonEmpty)[i])
  {
    var tags := Seqs.Filter(TrimAll(parts), NonEmpty);
    forall i | 0 <= i < |tags|
      ensures WellFormedTag(tags[i])
    {
      PieceWellFormed(parts, tags[i]);
    }
  }

  lemma PieceWellFormed(parts: seq<string>, tag: string)
    requires forall k :: 0 <= k < |parts| ==> ',' !in parts[k]
    requires tag in Seqs.Filter(TrimAll(parts), NonEmpty)
    ensures WellFormedTag(tag)
  {
    var trimmed := TrimAll(parts);
    Seqs.FilterMembership(trimmed, NonEmpty, tag);
    var k :| 0 <= k < |trimmed| && trimmed[k] == tag;
    TrimmedPieceWellFormed(parts[k]);
  }

  /** Every parsed tag is well formed. */
  lemma ParseTagsWellFormed(s: string)
    ensures forall i :: 0 <= i < |ParseTags(s)| ==> WellFormedTag(ParseTags(s)[i])
  {
    PiecesWellFormed(Split(s, ','));
  }

  /** The parsed tags keep the order in which they were written. */
  lemma ParseTagsInOrder(s: string)
    ensures Seqs.IsSubsequence(ParseTags(s), TrimAll(Split(s, ',')))
  {
    Seqs.FilterIsSubsequence(TrimAll(Split(s, ',')), NonEmpty);
  }

  /** Well-formed tags written with commas between them are read back unchanged. */
  lemma ParseTagsJoin(tags: seq<string>)
    requires forall i :: 0 <= i < |tags| ==> WellFormedTag(tags[i])
    ensures ParseTags(Join(tags, ',')) == tags
  {
    if tags == [] {
      assert Join(tags, ',') == "";
      assert Split("", ',') == [""];
      assert TrimAll([""]) == [""];
      assert Seqs.Filter([""], NonEmpty) == [];
    } else {
      SplitJoin(tags, ',');
      TrimAllOfTrimmed(tags);
      Seqs.FilterAll(tags, NonEmpty);
    }
  }

  lemma TrimAllOfTrimmed(tags: seq<string>)
    requires forall i :: 0 <= i < |tags| ==> Trimmed(tags[i])
    ensures TrimAll(tags) == tags
  {
    forall i | 0 <= i < |tags|
      ensures TrimAll(tags)[i] == tags[i]
    {
      TrimOfTrimmed(tags[i]);
    }
  }

  /** Parsing the comma-joined result of a parse gives the same tags. */
  lemma ParseTagsIdempotent(s: string)
    ensures ParseTags(Join(ParseTags(s), ',')) == ParseTags(s)
  {
    ParseTagsWellFormed(s);
    ParseTagsJoin(ParseTags(s));
  }

  /** The JSON body of the request: the form, with the two numbers parsed and the tags split. */
  datatype HotelData = HotelData(
    name: string,
    location: string,
    description: string,
    price: Option<real>,
    rating: Option<real>,
    image: string,
    tags: seq<string>)

  function ToHotelData(f: FormData, parseFloat: string -> Option<real>): (d: HotelData)
    ensures d.name == f.name && d.location == f.location && d.description == f.description
    ensures d.image == f.image
    ensures d.price == parseFloat(f.price) && d.rating == parseFloat(f.rating)
    ensures forall i :: 0 <= i < |d.tags| ==> WellFormedTag(d.tags[i])
  {
    ParseTagsWellFormed(f.tags);
    HotelData(f.name, f.location, f.description, parseFloat(f.price), parseFloat(f.rating),
              f.image, ParseTags(f.tags))
  }

  /**
   * How the request ended: a 2xx response, a non-2xx response whose JSON `error`
   * field is given, or a throw (`Some(message)` for an `Error`, `None` for anything else).
   */
  datatype SubmitOutcome = Accepted | Refused(error: string) | Threw(message: Option<string>)

  /** The error message a submission that passed validation ends with. */
  function SubmitError(outcome: SubmitOutcome): (e: Option<string>)
    ensures outcome.Accepted? <==> e.None?
    ensures outcome.Refused? && outcome.error != "" ==> e == Some(outcome.error)
    ensures outcome.Refused? && outcome.error == "" ==> e == Some("Failed to add hotel")
    ensures outcome.Threw? ==> e == Some(outcome.message.GetOr("Failed to add hotel"))
  {
    match outcome
    case Accepted => None
    case Refused(error) => Some(if error != "" then error else "Failed to add hotel")
    case Threw(message) => Some(message.GetOr("Failed to add hotel"))
  }

  class AddHotelPage {
    var formData: FormData
    var loading: bool
    var error: Option<string>

    constructor ()
      ensures formData == InitialForm && !loading && error == None
    {
      formData := InitialForm;
      loading := false;
      error := None;
    }

    /** `handleChange`: the input named `field` now holds `value`. */
    method HandleChange(field: FieldName, value: string)
      modifies this
      ensures formData == WithField(old(formData), field, value)
      ensures loading == old(loading) && error == old(error)
    {
      formData := WithField(formData, field, value);
    }

    /** `handleImageUpload`: the uploaded image's URL replaces the image field. */
    method HandleImageUpload(imageUrl: string)
      modifies this
      ensures formData == WithField(old(formData), Image, imageUrl)
      ensures loading == old(loading) && error == old(error)
    {
      formData := formData.(image := imageUrl);
    }

    /**
     * `handleSubmit`: a form that breaks a rule shows the rule's message and
     * sends nothing; otherwise the converted form is sent and the outcome
     * decides the error shown. Loading is off again at the end either way, and
     * the form's text is never changed.
     */
    method HandleSubmit(number: string -> Option<real>, parseFloat: string -> Option<real>,
                        outcome: SubmitOutcome)
      returns (sent: Option<HotelData>)
      modifies this
      ensures formData == old(formData) && !loading
      ensures ValidateForm(old(formData), number).Some? ==>
                sent == None && error == ValidateForm(old(formData), number)
      ensures ValidateForm(old(formData), number).None? ==>
                sent == Some(ToHotelData(old(formData), parseFloat)) && error == SubmitError(outcome)
    {
      loading := true;
      error := None;
      var validationError := ValidateForm(formData, number);
      if validationError.Some? {
        error := validationError;
        loading := false;
        return None;
      }
      sent := Some(ToHotelData(formData, parseFloat));
      match outcome {
        case Accepted =>
        case Refused(e) =>
          error := Some(if e != "" then e else "Failed to add hotel");
        case Threw(message) =>
          error := Some(message.GetOr("Failed to add hotel"));
      }
      loading := false;
    }
  }
}
