/** The site-content singleton of src/models/SiteContent.js: the schema's
    declared defaults, and `getContent`, which returns the stored document
    or creates one from the defaults when there is none. The collection is
    a sequence of documents; document ids come from a counter. */
module SiteContent {
  import opened Js

  datatype Feature = Feature(title: string, description: string)

  datatype Service = Service(title: string, description: string, tags: seq<string>)

  /** The site's editable texts, one field per schema path. */
  datatype Content = Content(
    heroTitle: string,
    heroTitleHighlight: string,
    heroSubtitle: string,
    heroCtaText: string,
    heroCtaLink: string,
    heroImageCaption: string,
    heroImageSubCaption: string,
    featuresSectionTitle: string,
    features: seq<Feature>,
    servicesSectionLabel: string,
    servicesSectionTitle: string,
    services: seq<Service>,
    contactTitle: string,
    contactSubtitle: string,
    contactEmail: string,
    copyrightText: string)

  /** What a caller hands to `create`: every path may be left out. */
  datatype FeatureInput = FeatureInput(title: Option<string>, description: Option<string>)

  datatype ServiceInput = ServiceInput(
    title: Option<string>, description: Option<string>, tags: Option<seq<string>>)

  datatype ContentInput = ContentInput(
    heroTitle: Option<string>,
    heroTitleHighlight: Option<string>,
    heroSubtitle: Option<string>,
    heroCtaText: Option<string>,
    heroCtaLink: Option<string>,
    heroImageCaption: Option<string>,
    heroImageSubCaption: Option<string>,
    featuresSectionTitle: Option<string>,
    features: Option<seq<FeatureInput>>,
    servicesSectionLabel: Option<string>,
    servicesSectionTitle: Option<string>,
    services: Option<seq<ServiceInput>>,
    contactTitle: Option<string>,
    contactSubtitle: Option<string>,
    contactEmail: Option<string>,
    copyrightText: Option<string>)

  /** `{}`: nothing given. */
  const NoInput := ContentInput(None, None, None, None, None, None, None, None,
                                None, None, None, None, None, None, None, None)

  /** A path's value, or its declared default when it was left out. */
  function Given<T>(x: Option<T>, default: T): (r: T)
    ensures x.Some? ==> r == x.value
    ensures x.None? ==> r == default
  {
    match x
    case Some(v) => v
    case None => default
  }

  /** A feature sub-document: title and description default to "". */
  function NewFeature(f: FeatureInput): (r: Feature)
    ensures f.title.None? ==> r.title == ""
    ensures f.description.None? ==> r.description == ""
    ensures f.title.Some? ==> r.title == f.title.value
    ensures f.description.Some? ==> r.description == f.description.value
  {
    Feature(Given(f.title, ""), Given(f.description, ""))
  }

  /** A service sub-document: title and description default to "", tags to no tags. */
  function NewService(s: ServiceInput): (r: Service)
    ensures s.title.None? ==> r.title == ""
    ensures s.description.None? ==> r.description == ""
    ensures s.title.Some? ==> r.title == s.title.value
    ensures s.description.Some? ==> r.description == s.description.value
    ensures s.tags.None? ==> r.tags == []
    ensures s.tags.Some? ==> r.tags == s.tags.value
  {
    Service(Given(s.title, ""), Given(s.description, ""), Given(s.tags, []))
  }

  const DefaultFeatures := [
    Feature("Clarity", "Navigating the peptide landscape with precision."),
    Feature("Compliance", "Guidance on regulatory standards."),
    Feature("Provider Support", "Direct expertise for healthcare professionals."),
    Feature("Transparency", "Honest information on peptide solutions.")]

  const DefaultServices := [
    Service("Peptide Blends", "Custom combinations tailored for specific therapeutic goals.",
            ["Custom", "Specific"]),
    Service("Capsules & Formats", "Alternative delivery systems beyond traditional injectables.",
            ["Oral", "Topical"]),
    Service("Advanced Compounds", "Specialized solutions for complex patient needs.",
            ["Research", "Clinical"])]

  /** The document the schema declares. */
  const Defaults := Content(
    "Supporting Providers with Guidance on",
    "Peptide Solutions",
    "Trusted, research-backed insights for optimizing patient wellness. We help healthcare professionals navigate the peptide landscape with precision and confidence.",
    "Start a Consultation",
    "/secure",
    "Advanced Peptide Science",
    "Enhancing Patient Outcomes",
    "Why Providers Partner With Us",
    DefaultFeatures,
    "Our Expertise",
    "Areas of Consultation",
    DefaultServices,
    "Ready to optimize your practice?",
    "Connect with our team to learn how BioVibe Peptides can support your patient outcomes.",
    "support@biovibepeptides.com",
    "\U{A9} 2024 BioVibe Peptides. All rights reserved.")

  /** The features array: the declared four when left out, else one cast sub-document per entry. */
  function NewFeatures(x: Option<seq<FeatureInput>>): (r: seq<Feature>)
    ensures x.None? ==> r == DefaultFeatures
    ensures x.Some? ==> |r| == |x.value| && forall i :: 0 <= i < |r| ==> r[i] == NewFeature(x.value[i])
  {
    match x
    case None => DefaultFeatures
    case Some(fs) => seq(|fs|, i requires 0 <= i < |fs| => NewFeature(fs[i]))
  }

  /** The services array: the declared three when left out, else one cast sub-document per entry. */
  function NewServices(x: Option<seq<ServiceInput>>): (r: seq<Service>)
    ensures x.None? ==> r == DefaultServices
    ensures x.Some? ==> |r| == |x.value| && forall i :: 0 <= i < |r| ==> r[i] == NewService(x.value[i])
  {
    match x
    case None => DefaultServices
    case Some(ss) => seq(|ss|, i requires 0 <= i < |ss| => NewService(ss[i]))
  }

  /** Casting an input against the schema: every path left out takes its
      default; given sub-documents take their own defaults. */
  function WithDefaults(c: ContentInput): (r: Content)
    ensures r.features == NewFeatures(c.features) && r.services == NewServices(c.services)
    ensures r.heroTitle == (if c.heroTitle.Some? then c.heroTitle.value else Defaults.heroTitle)
    ensures r.heroTitleHighlight == (if c.heroTitleHighlight.Some? then c.heroTitleHighlight.value else Defaults.heroTitleHighlight)
    ensures r.heroSubtitle == (if c.heroSubtitle.Some? then c.heroSubtitle.value else Defaults.heroSubtitle)
    ensures r.heroCtaText == (if c.heroCtaText.Some? then c.heroCtaText.value else Defaults.heroCtaText)
    ensures r.heroCtaLink == (if c.heroCtaLink.Some? then c.heroCtaLink.value else Defaults.heroCtaLink)
    ensures r.heroImageCaption == (if c.heroImageCaption.Some? then c.heroImageCaption.value else Defaults.heroImageCaption)
    ensures r.heroImageSubCaption == (if c.heroImageSubCaption.Some? then c.heroImageSubCaption.value else Defaults.heroImageSubCaption)
    ensures r.featuresSectionTitle == (if c.featuresSectionTitle.Some? then c.featuresSectionTitle.value else Defaults.featuresSectionTitle)
    ensures r.servicesSectionLabel == (if c.servicesSectionLabel.Some? then c.servicesSectionLabel.value else Defaults.servicesSectionLabel)
    ensures r.servicesSectionTitle == (if c.servicesSectionTitle.Some? then c.servicesSectionTitle.value else Defaults.servicesSectionTitle)
    ensures r.contactTitle == (if c.contactTitle.Some? then c.contactTitle.value else Defaults.contactTitle)
    ensures r.contactSubtitle == (if c.contactSubtitle.Some? then c.contactSubtitle.value else Defaults.contactSubtitle)
    ensures r.contactEmail == (if c.contactEmail.Some? then c.contactEmail.value else Defaults.contactEmail)
    ensures r.copyrightText == (if c.copyrightText.Some? then c.copyrightText.value else Defaults.copyrightText)
  {
    var d := Defaults;
    Content(
      Given(c.heroTitle, d.heroTitle),
      Given(c.heroTitleHighlight, d.heroTitleHighlight),
      Given(c.heroSubtitle, d.heroSubtitle),
      Given(c.heroCtaText, d.heroCtaText),
      Given(c.heroCtaLink, d.heroCtaLink),
      Given(c.heroImageCaption, d.heroImageCaption),
      Given(c.heroImageSubCaption, d.heroImageSubCaption),
      Given(c.featuresSectionTitle, d.featuresSectionTitle),
      NewFeatures(c.features),
      Given(c.servicesSectionLabel, d.servicesSectionLabel),
      Given(c.servicesSectionTitle, d.servicesSectionTitle),
      NewServices(c.services),
      Given(c.contactTitle, d.contactTitle),
      Given(c.contactSubtitle, d.contactSubtitle),
      Given(c.contactEmail, d.contactEmail),
      Given(c.copyrightText, d.copyrightText))
  }

  /** `create({})` stores exactly the declared defaults. */
  lemma EmptyInputGivesDefaults()
    ensures WithDefaults(NoInput) == Defaults
  {
  }

  /** Four default features, titled Clarity, Compliance, Provider Support
      and Transparency, in that order. */
  lemma DefaultFeatureTitles()
    ensures |Defaults.features| == 4
    ensures Defaults.features[0].title == "Clarity"
    ensures Defaults.features[1].title == "Compliance"
    ensures Defaults.features[2].title == "Provider Support"
    ensures Defaults.features[3].title == "Transparency"
  {
  }

  /** Three default services, each with two tags in the declared order. */
  lemma DefaultServiceTags()
    ensures |Defaults.services| == 3
    ensures forall i :: 0 <= i < 3 ==> |Defaults.services[i].tags| == 2
    ensures Defaults.services[0].title == "Peptide Blends" &&
            Defaults.services[0].tags == ["Custom", "Specific"]
    ensures Defaults.services[1].title == "Capsules & Formats" &&
            Defaults.services[1].tags == ["Oral", "Topical"]
    ensures Defaults.services[2].title == "Advanced Compounds" &&
            Defaults.services[2].tags == ["Research", "Clinical"]
  {
  }

  /** A few of the scalar defaults. */
  lemma DefaultScalars()
    ensures Defaults.heroCtaLink == "/secure"
    ensures Defaults.contactEmail == "support@biovibepeptides.com"
    ensures Defaults.copyrightText == "\U{A9} 2024 BioVibe Peptides. All rights reserved."
  {
  }

  // ------------------------------------------------------------ the store

  datatype Document = Document(id: nat, content: Content)

  /** The stored ids are distinct and all below the next id to hand out. */
  predicate WellFormed(docs: seq<Document>, nextId: nat) {
    (forall i :: 0 <= i < |docs| ==> docs[i].id < nextId) &&
    (forall i, j :: 0 <= i < j < |docs| ==> docs[i].id != docs[j].id)
  }

  /** Appending a document that carries the next id keeps the store well formed. */
  lemma WellFormedAppend(docs: seq<Document>, nextId: nat, d: Document)
    requires WellFormed(docs, nextId) && d.id == nextId
    ensures WellFormed(docs + [d], nextId + 1)
  {
    var r := docs + [d];
    assert forall i :: 0 <= i < |docs| ==> r[i] == docs[i];
  }

  /** The outcome of one `getContent` call: the store after it and the
      document returned. */
  datatype Outcome = Outcome(docs: seq<Document>, nextId: nat, returned: Document)

  /** `getContent` on a store: `findOne()` yields the first document; when
      there is none, `create({})` appends a document of defaults. */
  function GetOrCreate(docs: seq<Document>, nextId: nat): (r: Outcome)
    ensures r.returned in r.docs
    ensures docs == [] ==> r.docs == [r.returned] && r.returned.content == Defaults
    ensures docs != [] ==> r.docs == docs && r.nextId == nextId
    ensures WellFormed(docs, nextId) ==> WellFormed(r.docs, r.nextId)
  {
    if docs == [] then
      var created := Document(nextId, WithDefaults(NoInput));
      Outcome([created], nextId + 1, created)
    else
      Outcome(docs, nextId, docs[0])
  }

  /** No call modifies a document that was already stored, nor drops one. */
  lemma GetOrCreateKeepsDocuments(docs: seq<Document>, nextId: nat)
    ensures docs <= GetOrCreate(docs, nextId).docs
  {
  }

  /** A second call returns the same document as the first and changes
      nothing; from an empty store, one document is left after both. */
  lemma GetOrCreateIdempotent(docs: seq<Document>, nextId: nat)
    ensures var first := GetOrCreate(docs, nextId);
      var second := GetOrCreate(first.docs, first.nextId);
      second.returned == first.returned && second.docs == first.docs &&
      second.nextId == first.nextId &&
      (docs == [] ==> |second.docs| == 1)
  {
    var first := GetOrCreate(docs, nextId);
    assert first.docs != [] && first.returned == first.docs[0];
  }

  /** The collection, sequenced: each call runs to completion before the next. */
  class ContentStore {
    var docs: seq<Document>
    var nextId: nat

    predicate Valid()
      reads this
    {
      WellFormed(docs, nextId)
    }

    /** An empty collection. */
    constructor ()
      ensures docs == [] && nextId == 0 && Valid()
    {
      docs := [];
      nextId := 0;
    }

    /** `findOne()`: the first stored document, if any. */
    method FindOne() returns (d: Option<Document>)
      ensures docs == [] <==> d.None?
      ensures d.Some? ==> d.value == docs[0]
    {
      if docs == [] {
        d := None;
      } else {
        d := Some(docs[0]);
      }
    }

    /** `create(input)`: stores a new document with the defaults filled in. */
    method Create(input: ContentInput) returns (d: Document)
      requires Valid()
      modifies this
      ensures Valid()
      ensures d == Document(old(nextId), WithDefaults(input))
      ensures docs == old(docs) + [d] && nextId == old(nextId) + 1
    {
      d := Document(nextId, WithDefaults(input));
      WellFormedAppend(docs, nextId, d);
      docs := docs + [d];
      nextId := nextId + 1;
    }

    /** `getContent()`. */
    method GetContent() returns (d: Document)
      requires Valid()
      modifies this
      ensures Valid()
      ensures GetOrCreate(old(docs), old(nextId)) == Outcome(docs, nextId, d)
    {
      var found := FindOne();
      if found.None? {
        d := Create(NoInput);
      } else {
        d := found.value;
      }
    }
  }
}
