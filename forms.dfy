/** The dashboard's create-trek, edit-trek and create-blog submissions: the
    multipart form each builds from its state, the token check that comes
    first, and the blog modal's content sections, which are edited in
    place. */
module Forms {

  import opened JsValues
  import opened JsStrings
  import opened Api
  import opened TrekDays

  /** A value of a modal's form state: a text input or a checkbox. */
  datatype FieldValue = TextField(text: string) | FlagField(flag: bool)

  /** How an entry's value is sent: a flag as `'1'` or `'0'` (the backend
      does not accept `true`/`false`), text as it is. */
  function FieldText(v: FieldValue): string
  {
    match v
    case FlagField(b) => FlagValue(b)
    case TextField(t) => t
  }

  /** The entries `Object.entries(formData).forEach(... append ...)` adds,
      in the state's own key order. */
  function EncodedFields(fields: seq<(string, FieldValue)>): (r: seq<(string, FormValue)>)
    ensures |r| == |fields|
  {
    seq(|fields|, i requires 0 <= i < |fields| => (fields[i].0, Text(FieldText(fields[i].1))))
  }

  /** Each state field becomes one text entry under its own key, in order; a
      flag is sent as `'1'` exactly when it is set and as `'0'` otherwise. */
  lemma EncodedFieldsSpec(fields: seq<(string, FieldValue)>)
    ensures forall i :: 0 <= i < |fields| ==>
      EncodedFields(fields)[i].0 == fields[i].0 && EncodedFields(fields)[i].1.Text?
    ensures forall i :: 0 <= i < |fields| && fields[i].1.FlagField? ==>
      (EncodedFields(fields)[i].1.text == "1" <==> fields[i].1.flag) &&
      (EncodedFields(fields)[i].1.text == "0" <==> !fields[i].1.flag)
    ensures forall i :: 0 <= i < |fields| && fields[i].1.TextField? ==>
      EncodedFields(fields)[i].1.text == fields[i].1.text
  {
  }

  /** The `forEach` loop that appends the state's fields to a form. */
  method AppendFields(form: FormData, fields: seq<(string, FieldValue)>)
    modifies form
    ensures form.entries == old(form.entries) + EncodedFields(fields)
  {
    var i := 0;
    while i < |fields|
      invariant 0 <= i <= |fields|
      invariant form.entries == old(form.entries) + EncodedFields(fields[..i])
    {
      var key := fields[i].0;
      match fields[i].1 {
        case FlagField(b) => form.Append(key, Text(if b then "1" else "0"));
        case TextField(t) => form.Append(key, Text(t));
      }
      assert EncodedFields(fields[..i + 1]) == EncodedFields(fields[..i]) + [(key, Text(FieldText(fields[i].1)))];
      i := i + 1;
    }
    assert fields[..i] == fields;
  }

  /** The day list as the JSON array `JSON.stringify(trekDays)` writes. */
  function DaysJson(days: seq<string>): (j: Json)
    ensures j.JArr? && |j.items| == |days|
    ensures forall i :: 0 <= i < |days| ==> j.items[i] == JStr(days[i])
  {
    JArr(seq(|days|, i requires 0 <= i < |days| => JStr(days[i])))
  }

  /** The uploaded images, each under `images[]`. */
  function ImageEntries(images: seq<string>): seq<(string, FormValue)>
  {
    seq(|images|, i requires 0 <= i < |images| => ("images[]", File(images[i])))
  }

  /** The form of the create (no featured image) and edit trek modals: the
      state's fields, then `trek_days` as JSON, then the featured image
      when one was chosen, then the images. */
  function TrekFormEntries(fields: seq<(string, FieldValue)>, days: seq<string>, stringify: Writer,
                           featured: Option<string>, images: seq<string>): seq<(string, FormValue)>
  {
    EncodedFields(fields) + [("trek_days", Text(stringify(DaysJson(days))))] +
    (if featured.Some? then [("featured_image", File(featured.value))] else []) +
    ImageEntries(images)
  }

  /** Builds a fresh form holding `TrekFormEntries`. */
  method BuildTrekForm(fields: seq<(string, FieldValue)>, days: seq<string>, stringify: Writer,
                       featured: Option<string>, images: seq<string>) returns (form: FormData)
    ensures fresh(form)
    ensures form.entries == TrekFormEntries(fields, days, stringify, featured, images)
  {
    form := new FormData();
    AppendFields(form, fields);
    form.Append("trek_days", Text(stringify(DaysJson(days))));
    if featured.Some? {
      form.Append("featured_image", File(featured.value));
    }
    var i := 0;
    while i < |images|
      invariant 0 <= i <= |images|
      invariant form.entries == EncodedFields(fields) + [("trek_days", Text(stringify(DaysJson(days))))] +
        (if featured.Some? then [("featured_image", File(featured.value))] else []) + ImageEntries(images[..i])
    {
      form.Append("images[]", File(images[i]));
      assert ImageEntries(images[..i + 1]) == ImageEntries(images[..i]) + [("images[]", File(images[i]))];
      i := i + 1;
    }
    assert images[..i] == images;
  }

  /** The form carries the day list in a form the dashboard's decoder reads
      back: the `trek_days` entry, right after the state's fields, decodes to
      the days that were written (an empty list to the default day). */
  lemma TrekDaysEntryRoundTrip(parse: Parser, stringify: Writer, fields: seq<(string, FieldValue)>,
                               days: seq<string>, featured: Option<string>, images: seq<string>)
    requires RoundTrips(parse, stringify, DaysJson(days).items)
    ensures var e := TrekFormEntries(fields, days, stringify, featured, images)[|fields|];
      e.0 == "trek_days" && e.1.Text? &&
      Decode(parse, Some(JStr(e.1.text))) == if days != [] then DaysJson(days).items else DefaultDays
  {
    RoundTrip(parse, stringify, DaysJson(days).items, 1);
    assert JArr(DaysJson(days).items) == DaysJson(days);
  }

  /** `localStorage.getItem('authToken')` passes the `!token` test. */
  predicate HasToken(token: Option<string>)
  {
    token.Some? && token.value != ""
  }

  /** A request the page sends: its URL and its form entries. */
  datatype Request = Request(url: string, entries: seq<(string, FormValue)>)

  /** The edit modal's submit: without a token nothing is sent; otherwise
      the form is built and handed to `updateTrek`, which adds
      `_method=PUT`. */
  method SubmitTrekEdit(token: Option<string>, trekId: int, fields: seq<(string, FieldValue)>, days: seq<string>,
                        stringify: Writer, featured: Option<string>, images: seq<string>, fetched: FetchResult)
    returns (sent: Option<Request>, r: Option<Outcome<Json>>)
    ensures sent.Some? <==> HasToken(token)
    ensures r.Some? <==> HasToken(token)
    ensures HasToken(token) ==>
      sent == Some(Request(ApiBaseUrl + "/treks/" + IntToString(trekId),
                           TrekFormEntries(fields, days, stringify, featured, images) + [("_method", Text("PUT"))])) &&
      r == Some(MutationResult(fetched, UpdateTrekFailed))
  {
    if !HasToken(token) {
      return None, None;
    }
    var form := BuildTrekForm(fields, days, stringify, featured, images);
    var url, outcome := UpdateTrek(trekId, form, fetched);
    sent := Some(Request(url, form.entries));
    r := Some(outcome);
  }

  /** The create modal's submit: the same form without a featured image,
      posted to `/treks` by `createTrek`. */
  method SubmitTrekCreate(token: Option<string>, fields: seq<(string, FieldValue)>, days: seq<string>,
                          stringify: Writer, images: seq<string>, fetched: FetchResult)
    returns (sent: Option<Request>, r: Option<Outcome<Json>>)
    ensures sent.Some? <==> HasToken(token)
    ensures r.Some? <==> HasToken(token)
    ensures HasToken(token) ==>
      sent == Some(Request(ApiBaseUrl + "/treks", TrekFormEntries(fields, days, stringify, None, images))) &&
      r == Some(MutationResult(fetched, CreateTrekFailed))
  {
    if !HasToken(token) {
      return None, None;
    }
    var form := BuildTrekForm(fields, days, stringify, None, images);
    sent := Some(Request(ApiBaseUrl + "/treks", form.entries));
    r := Some(MutationResult(fetched, CreateTrekFailed));
  }

  /** Submitting an edit and submitting a new trek from the same state
      (no featured image) send the same form, except that the edit adds
      one last `_method=PUT` entry and names the trek in its URL. */
  method EditAddsMethodLast(token: Option<string>, trekId: int, fields: seq<(string, FieldValue)>,
                            days: seq<string>, stringify: Writer, images: seq<string>, fetched: FetchResult)
    returns (edit: Option<Request>, create: Option<Request>)
    ensures edit.Some? <==> create.Some?
    ensures edit.Some? ==>
      edit.value.entries == create.value.entries + [("_method", Text("PUT"))] &&
      edit.value.url == create.value.url + "/" + IntToString(trekId)
  {
    var editOutcome, createOutcome;
    edit, editOutcome := SubmitTrekEdit(token, trekId, fields, days, stringify, None, images, fetched);
    create, createOutcome := SubmitTrekCreate(token, fields, days, stringify, images, fetched);
  }

  // ---- Blog content sections

  /** A `{ heading, paragraph }` section of the blog modal. */
  class ContentSection {
    var heading: string
    var paragraph: string

    constructor (heading: string, paragraph: string)
      ensures this.heading == heading && this.paragraph == paragraph
    {
      this.heading := heading;
      this.paragraph := paragraph;
    }
  }

  datatype SectionField = Heading | Paragraph

  /** `updateContentSection(index, field, value)`: the new list is a shallow
      copy, so it holds the very section objects of the old one, and the
      section at `index` is changed in place, under both lists. */
  method UpdateContentSection(sections: seq<ContentSection>, index: nat, field: SectionField, value: string)
    returns (updated: seq<ContentSection>)
    requires index < |sections|
    modifies sections[index]
    ensures updated == sections
    ensures field == Heading ==>
      sections[index].heading == value && sections[index].paragraph == old(sections[index].paragraph)
    ensures field == Paragraph ==>
      sections[index].paragraph == value && sections[index].heading == old(sections[index].heading)
  {
    var copy := new ContentSection[|sections|](i requires 0 <= i < |sections| => sections[i]);
    match field {
      case Heading => copy[index].heading := value;
      case Paragraph => copy[index].paragraph := value;
    }
    updated := copy[..];
    assert updated == sections;
  }

  /** The sections as the JSON array `JSON.stringify(contentSections)`
      writes. */
  function SectionsJson(sections: seq<ContentSection>): (j: Json)
    reads set s | s in sections
    ensures j.JArr? && |j.items| == |sections|
    ensures forall i :: 0 <= i < |sections| ==>
      j.items[i].JObj? && j.items[i].fields.Keys == {"heading", "paragraph"} &&
      Get(j.items[i], "heading") == Some(JStr(sections[i].heading)) &&
      Get(j.items[i], "paragraph") == Some(JStr(sections[i].paragraph))
  {
    JArr(seq(|sections|, i reads set s | s in sections requires 0 <= i < |sections| =>
      JObj(map["heading" := JStr(sections[i].heading), "paragraph" := JStr(sections[i].paragraph)])))
  }

  /** The blog modal's submit: without a token nothing is sent; otherwise
      the state's fields, then `content` as JSON, then the image when one
      was chosen, posted to `/blogs` by `createBlog`. */
  method SubmitBlog(token: Option<string>, fields: seq<(string, FieldValue)>, sections: seq<ContentSection>,
                    stringify: Writer, image: Option<string>, fetched: FetchResult)
    returns (sent: Option<Request>, r: Option<Outcome<Json>>)
    ensures sent.Some? <==> HasToken(token)
    ensures r.Some? <==> HasToken(token)
    ensures HasToken(token) ==>
      sent == Some(Request(ApiBaseUrl + "/blogs",
                           EncodedFields(fields) + [("content", Text(stringify(SectionsJson(sections))))] +
                           (if image.Some? then [("image", File(image.value))] else []))) &&
      r == Some(MutationResult(fetched, CreateBlogFailed))
  {
    if !HasToken(token) {
      return None, None;
    }
    var content := stringify(SectionsJson(sections));
    var form := new FormData();
    AppendFields(form, fields);
    assert form.entries == EncodedFields(fields);
    form.Append("content", Text(content));
    if image.Some? {
      form.Append("image", File(image.value));
    }
    assert form.entries == EncodedFields(fields) + [("content", Text(content))] +
      (if image.Some? then [("image", File(image.value))] else []);
    sent := Some(Request(ApiBaseUrl + "/blogs", form.entries));
    assert content == stringify(SectionsJson(sections));
    r := Some(MutationResult(fetched, CreateBlogFailed));
  }
}
