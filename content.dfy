/**
 * The content script that runs on contributor pages: the upload-page test, the
 * placement of the helper panel, the lookup of the host page's metadata fields
 * by candidate names, the re-entrancy guard of image analysis, the language
 * toggle, the keyword count and SEO score, and filling the page's title fields.
 *
 * The host page's DOM is a sequence of element records in document order; an
 * element is referred to by its position. The helper panel's own inputs are the
 * fields of a `Panel` value. What the analysis server answers is a parameter.
 */
module Content {
  import opened Wrappers
  import opened Js

  datatype Tag = Input | TextArea | Select | Form | Body | OtherTag

  /** One DOM element: its tag and the attributes the content script queries, plus its current value. */
  datatype Element = Element(
    tag: Tag,
    name: Option<string>,
    id: Option<string>,
    placeholder: Option<string>,
    inputType: Option<string>,
    enctype: Option<string>,
    classes: set<string>,
    value: string)

  /** What one `document.querySelector` call asks of an element. */
  datatype Criterion = FileInput | Attribute(candidate: string, tier: Tier) | Target(selector: Selector)

  predicate Satisfies(e: Element, c: Criterion)
  {
    match c
    case FileInput => IsFileInput(e)
    case Attribute(candidate, t) => TierMatches(e, candidate, t)
    case Target(s) => SelectorMatches(e, s)
  }

  /** `document.querySelector`: the first element in document order that satisfies the criterion. */
  function FirstIndex(dom: seq<Element>, c: Criterion): (r: Option<nat>)
    ensures r.Some? ==> r.value < |dom| && Satisfies(dom[r.value], c) &&
                        forall j :: 0 <= j < r.value ==> !Satisfies(dom[j], c)
    ensures r.None? <==> forall j :: 0 <= j < |dom| ==> !Satisfies(dom[j], c)
    decreases |dom|
  {
    if |dom| == 0 then None
    else if Satisfies(dom[0], c) then Some(0)
    else
      match FirstIndex(dom[1..], c)
      case None => None
      case Some(k) => Some(k + 1)
  }

  // ---------------------------------------------------------------- upload page

  predicate IsFileInput(e: Element)
  {
    e.tag == Input && e.inputType == Some("file")
  }

  /** `isUploadPage`: a warehouse, upload or edit URL, or any file input on the page. */
  function IsUploadPage(url: string, dom: seq<Element>): (r: bool)
    ensures r <==> Includes(url, "/warehouse") || Includes(url, "/upload") || Includes(url, "/edit") ||
                   exists i :: 0 <= i < |dom| && IsFileInput(dom[i])
  {
    Includes(url, "/warehouse") || Includes(url, "/upload") || Includes(url, "/edit") ||
    FirstIndex(dom, FileInput).Some?
  }

  // ---------------------------------------------------------------- field lookup

  /** `[attr*="v"]`: the attribute is present and contains `v`; an empty `v` matches nothing. */
  predicate AttrContains(attr: Option<string>, v: string)
  {
    attr.Some? && v != "" && Includes(attr.value, v)
  }

  /** The three attribute selectors `findField` tries for one candidate, in this order. */
  datatype Tier = ByName | ById | ByPlaceholder

  function Rank(t: Tier): nat
  {
    match t
    case ByName => 0
    case ById => 1
    case ByPlaceholder => 2
  }

  /** Name and id selectors cover input, textarea and select; the placeholder selector only input and textarea. */
  predicate TierMatches(e: Element, candidate: string, t: Tier)
  {
    match t
    case ByName => e.tag in {Input, TextArea, Select} && AttrContains(e.name, candidate)
    case ById => e.tag in {Input, TextArea, Select} && AttrContains(e.id, candidate)
    case ByPlaceholder => e.tag in {Input, TextArea} && AttrContains(e.placeholder, candidate)
  }

  predicate Unmatched(dom: seq<Element>, candidate: string, t: Tier)
  {
    forall j :: 0 <= j < |dom| ==> !TierMatches(dom[j], candidate, t)
  }

  /** One `querySelector` call of `findField`. */
  function Query(dom: seq<Element>, candidate: string, t: Tier): (r: Option<nat>)
    ensures r.Some? ==> r.value < |dom| && TierMatches(dom[r.value], candidate, t) &&
                        forall j :: 0 <= j < r.value ==> !TierMatches(dom[j], candidate, t)
    ensures r.None? <==> Unmatched(dom, candidate, t)
  {
    FirstIndex(dom, Attribute(candidate, t))
  }

  /** The three queries for one candidate: the first that finds an element decides. */
  function CandidateLookup(dom: seq<Element>, candidate: string): (r: Option<nat>)
    ensures r.Some? ==> r.value < |dom|
    ensures r.None? <==> Unmatched(dom, candidate, ByName) && Unmatched(dom, candidate, ById) &&
                         Unmatched(dom, candidate, ByPlaceholder)
  {
    match Query(dom, candidate, ByName)
    case Some(i) => Some(i)
    case None =>
      match Query(dom, candidate, ById)
      case Some(i) => Some(i)
      case None => Query(dom, candidate, ByPlaceholder)
  }

  /** The element one candidate's queries return matches that candidate under one of the selectors. */
  lemma CandidateLookupSound(dom: seq<Element>, candidate: string, i: nat)
    requires CandidateLookup(dom, candidate) == Some(i)
    ensures i < |dom|
    ensures TierMatches(dom[i], candidate, ByName) || TierMatches(dom[i], candidate, ById) ||
            TierMatches(dom[i], candidate, ByPlaceholder)
  {
  }

  /** The three selectors are all the selectors there are. */
  lemma AllTiersUnmatched(dom: seq<Element>, candidate: string)
    requires Unmatched(dom, candidate, ByName) && Unmatched(dom, candidate, ById) &&
             Unmatched(dom, candidate, ByPlaceholder)
    ensures forall t :: Unmatched(dom, candidate, t)
  {
    forall t ensures Unmatched(dom, candidate, t) {
      match t
      case ByName =>
      case ById =>
      case ByPlaceholder =>
    }
  }

  /** What `findField(possibleNames)` returns, as a function of the page. */
  function FieldLookup(dom: seq<Element>, names: seq<string>): (r: Option<nat>)
    ensures r.Some? ==> r.value < |dom|
    decreases |names|
  {
    if |names| == 0 then None
    else
      match CandidateLookup(dom, names[0])
      case Some(i) => Some(i)
      case None => FieldLookup(dom, names[1..])
  }

  /**
   * Element `i` is the one `findField` must return because of candidate `k` and
   * selector `t`: no earlier candidate matches anything, no earlier selector for
   * candidate `k` matches anything, and `i` is the first element `t` matches.
   */
  ghost predicate Wins(dom: seq<Element>, names: seq<string>, k: nat, t: Tier, i: nat)
  {
    k < |names| && i < |dom| &&
    (forall k', t' :: 0 <= k' < k ==> Unmatched(dom, names[k'], t')) &&
    (forall t' :: Rank(t') < Rank(t) ==> Unmatched(dom, names[k], t')) &&
    TierMatches(dom[i], names[k], t) &&
    (forall j :: 0 <= j < i ==> !TierMatches(dom[j], names[k], t))
  }

  /** `findField` returns null exactly when no candidate matches any element under any selector. */
  lemma {:induction false} FieldLookupNoneIff(dom: seq<Element>, names: seq<string>)
    ensures FieldLookup(dom, names).None? <==> forall k, t :: 0 <= k < |names| ==> Unmatched(dom, names[k], t)
    decreases |names|
  {
    if |names| > 0 {
      FieldLookupNoneIff(dom, names[1..]);
      assert forall k :: 1 <= k < |names| ==> names[1..][k - 1] == names[k];
      if CandidateLookup(dom, names[0]).None? {
        AllTiersUnmatched(dom, names[0]);
        forall k, t | 0 <= k < |names| && !Unmatched(dom, names[k], t) ensures FieldLookup(dom, names).Some? {
          assert k > 0 && names[1..][k - 1] == names[k];
        }
      }
    }
  }

  /** Every element `findField` returns is the winner of the precedence order. */
  lemma {:induction false} FieldLookupSound(dom: seq<Element>, names: seq<string>, i: nat)
    requires FieldLookup(dom, names) == Some(i)
    ensures exists k, t :: Wins(dom, names, k, t, i)
    decreases |names|
  {
    var c := names[0];
    if CandidateLookup(dom, c).Some? {
      if Query(dom, c, ByName).Some? {
        assert Wins(dom, names, 0, ByName, i);
      } else if Query(dom, c, ById).Some? {
        assert forall t' :: Rank(t') < Rank(ById) ==> t' == ByName;
        assert Wins(dom, names, 0, ById, i);
      } else {
        assert forall t' :: Rank(t') < Rank(ByPlaceholder) ==> t' == ByName || t' == ById;
        assert Wins(dom, names, 0, ByPlaceholder, i);
      }
    } else {
      FieldLookupSound(dom, names[1..], i);
      var k: nat, t: Tier :| Wins(dom, names[1..], k, t, i);
      forall k', t' | 0 <= k' < k + 1 ensures Unmatched(dom, names[k'], t') {
        if k' > 0 {
          assert names[k'] == names[1..][k' - 1];
        }
      }
      assert names[k + 1] == names[1..][k];
      assert Wins(dom, names, k + 1, t, i);
    }
  }

  /** ... and the winner of the precedence order is what `findField` returns. */
  lemma {:induction false} FieldLookupComplete(dom: seq<Element>, names: seq<string>, k: nat, t: Tier, i: nat)
    requires Wins(dom, names, k, t, i)
    ensures FieldLookup(dom, names) == Some(i)
    decreases k
  {
    var c := names[0];
    if k == 0 {
      assert Query(dom, c, t) == Some(i);
      match t
      case ByName =>
      case ById =>
        assert Unmatched(dom, c, ByName);
      case ByPlaceholder =>
        assert Unmatched(dom, c, ByName) && Unmatched(dom, c, ById);
    } else {
      assert forall t' :: Unmatched(dom, c, t');
      assert names[1..][k - 1] == names[k];
      forall k', t' | 0 <= k' < k - 1 ensures Unmatched(dom, names[1..][k'], t') {
        assert names[1..][k'] == names[k' + 1];
      }
      assert Wins(dom, names[1..], k - 1, t, i);
      FieldLookupComplete(dom, names[1..], k - 1, t, i);
    }
  }

  /** A select element can only be found through its name or its id, never its placeholder. */
  lemma SelectFoundByNameOrId(dom: seq<Element>, names: seq<string>, i: nat)
    requires FieldLookup(dom, names) == Some(i) && dom[i].tag == Select
    ensures exists k :: 0 <= k < |names| && (TierMatches(dom[i], names[k], ByName) || TierMatches(dom[i], names[k], ById))
  {
    FieldLookupSound(dom, names, i);
    var k: nat, t: Tier :| Wins(dom, names, k, t, i);
    assert t != ByPlaceholder;
  }

  /** A candidate that matches nothing can be dropped from the list without changing the lookup. */
  lemma {:induction false} DropUnmatchedCandidate(dom: seq<Element>, names: seq<string>, j: nat)
    requires j < |names| && CandidateLookup(dom, names[j]).None?
    ensures FieldLookup(dom, names) == FieldLookup(dom, names[..j] + names[j + 1..])
    decreases j
  {
    var shorter := names[..j] + names[j + 1..];
    if j == 0 {
      assert shorter == names[1..];
    } else {
      assert shorter[0] == names[0];
      assert shorter[1..] == names[1..][..j - 1] + names[1..][j..];
      assert names[1..][j - 1] == names[j];
      DropUnmatchedCandidate(dom, names[1..], j - 1);
    }
  }

  /** Every element matching a candidate that contains `a` also matches `a` under the same selector. */
  lemma ContainedCandidateUnmatched(dom: seq<Element>, a: string, c: string)
    requires a != "" && Includes(c, a) && CandidateLookup(dom, a).None?
    ensures CandidateLookup(dom, c).None?
  {
    AllTiersUnmatched(dom, a);
    forall t, j | 0 <= j < |dom| && TierMatches(dom[j], c, t) ensures TierMatches(dom[j], a, t) {
      TierMatchesContained(dom[j], a, c, t);
    }
  }

  lemma TierMatchesContained(e: Element, a: string, c: string, t: Tier)
    requires a != "" && Includes(c, a) && TierMatches(e, c, t)
    ensures TierMatches(e, a, t)
  {
    var attr := match t case ByName => e.name case ById => e.id case ByPlaceholder => e.placeholder;
    IncludesTransitive(attr.value, c, a);
  }

  /**
   * A later candidate that contains the first one can never decide the lookup:
   * whatever matches it matches the first candidate already.
   */
  lemma RedundantCandidate(dom: seq<Element>, names: seq<string>, j: nat)
    requires 0 < j < |names| && names[0] != "" && Includes(names[j], names[0])
    ensures FieldLookup(dom, names) == FieldLookup(dom, names[..j] + names[j + 1..])
  {
    if CandidateLookup(dom, names[0]).None? {
      ContainedCandidateUnmatched(dom, names[0], names[j]);
      DropUnmatchedCandidate(dom, names, j);
    } else {
      assert (names[..j] + names[j + 1..])[0] == names[0];
    }
  }

  /** The six slots `detectFormFields` fills, with their candidate names in the order they are tried. */
  const TitleEnNames: seq<string> := ["title", "name", "title_en"]
  const TitleArNames: seq<string> := ["title_ar", "arabic_title", "عنوان"]
  const KeywordsEnNames: seq<string> := ["keywords", "tags", "keywords_en"]
  const KeywordsArNames: seq<string> := ["keywords_ar", "arabic_keywords", "tags_ar"]
  const CategoryNames: seq<string> := ["category", "فئة"]
  const LicenseNames: seq<string> := ["license", "license_type", "رخصة"]

  /** The keys of the `formFields` object. */
  datatype Slot = TitleEn | TitleAr | KeywordsEn | KeywordsAr | Category | License

  /** The six candidate lists, one per slot. */
  datatype CandidateLists = CandidateLists(
    titleEn: seq<string>, titleAr: seq<string>, keywordsEn: seq<string>, keywordsAr: seq<string>,
    category: seq<string>, license: seq<string>)

  /** The lists `detectFormFields` passes to `findField`. */
  const SourceCandidates := CandidateLists(TitleEnNames, TitleArNames, KeywordsEnNames, KeywordsArNames,
                                           CategoryNames, LicenseNames)

  function Candidates(lists: CandidateLists, slot: Slot): seq<string>
  {
    match slot
    case TitleEn => lists.titleEn
    case TitleAr => lists.titleAr
    case KeywordsEn => lists.keywordsEn
    case KeywordsAr => lists.keywordsAr
    case Category => lists.category
    case License => lists.license
  }

  /** The `formFields` object: for every slot the page element found for it, or null. */
  datatype FormFields = FormFields(
    titleEn: Option<nat>, titleAr: Option<nat>, keywordsEn: Option<nat>, keywordsAr: Option<nat>,
    category: Option<nat>, license: Option<nat>)

  function Field(f: FormFields, slot: Slot): Option<nat>
  {
    match slot
    case TitleEn => f.titleEn
    case TitleAr => f.titleAr
    case KeywordsEn => f.keywordsEn
    case KeywordsAr => f.keywordsAr
    case Category => f.category
    case License => f.license
  }

  /** What `detectFormFields` builds from the page. */
  function DetectedFields(dom: seq<Element>, lists: CandidateLists): FormFields
  {
    FormFields(FieldLookup(dom, lists.titleEn), FieldLookup(dom, lists.titleAr),
               FieldLookup(dom, lists.keywordsEn), FieldLookup(dom, lists.keywordsAr),
               FieldLookup(dom, lists.category), FieldLookup(dom, lists.license))
  }

  /** Every slot is looked up by its own candidate list and holds an element of the page or null. */
  lemma DetectedFieldsBySlot(dom: seq<Element>, lists: CandidateLists, slot: Slot)
    ensures Field(DetectedFields(dom, lists), slot) == FieldLookup(dom, Candidates(lists, slot))
    ensures Field(DetectedFields(dom, lists), slot).Some? ==> Field(DetectedFields(dom, lists), slot).value < |dom|
    ensures Field(DetectedFields(dom, lists), slot).None? <==>
            forall k, t :: 0 <= k < |Candidates(lists, slot)| ==> Unmatched(dom, Candidates(lists, slot)[k], t)
  {
    FieldLookupNoneIff(dom, Candidates(lists, slot));
  }

  /** The candidates "title_en", "keywords_en" and "license_type" never decide their slot. */
  lemma ContainedCandidatesNeverDecide(dom: seq<Element>)
    ensures FieldLookup(dom, TitleEnNames) == FieldLookup(dom, ["title", "name"])
    ensures FieldLookup(dom, KeywordsEnNames) == FieldLookup(dom, ["keywords", "tags"])
    ensures FieldLookup(dom, LicenseNames) == FieldLookup(dom, ["license", "رخصة"])
  {
    assert StartsWith("title_en", "title");
    RedundantCandidate(dom, TitleEnNames, 2);
    assert TitleEnNames[..2] + TitleEnNames[3..] == ["title", "name"];
    assert StartsWith("keywords_en", "keywords");
    RedundantCandidate(dom, KeywordsEnNames, 2);
    assert KeywordsEnNames[..2] + KeywordsEnNames[3..] == ["keywords", "tags"];
    assert StartsWith("license_type", "license");
    RedundantCandidate(dom, LicenseNames, 1);
    assert LicenseNames[..1] + LicenseNames[2..] == ["license", "رخصة"];
  }

  /** A page whose only field is named "title_ar": the English and the Arabic title slots find the same element. */
  lemma ArabicTitleFieldFillsBothSlots()
    ensures var dom := [Element(Input, Some("title_ar"), None, None, Some("text"), None, {}, "")];
            FieldLookup(dom, TitleEnNames) == Some(0) && FieldLookup(dom, TitleArNames) == Some(0)
  {
    var dom := [Element(Input, Some("title_ar"), None, None, Some("text"), None, {}, "")];
    assert StartsWith("title_ar", "title");
    assert TierMatches(dom[0], "title", ByName);
    assert Wins(dom, TitleEnNames, 0, ByName, 0);
    FieldLookupComplete(dom, TitleEnNames, 0, ByName, 0);
    assert StartsWith("title_ar", "title_ar");
    assert Wins(dom, TitleArNames, 0, ByName, 0);
    FieldLookupComplete(dom, TitleArNames, 0, ByName, 0);
  }

  /** An element write `el.value = v`, done only when the slot was found and `v` is non-empty. */
  function WriteValue(dom: seq<Element>, at: Option<nat>, v: string): (r: seq<Element>)
    ensures |r| == |dom|
    ensures forall j :: 0 <= j < |dom| && (at != Some(j) || v == "") ==> r[j] == dom[j]
    ensures at.Some? && at.value < |dom| && v != "" ==> r[at.value] == dom[at.value].(value := v)
  {
    if at.Some? && at.value < |dom| && v != "" then dom[at.value := dom[at.value].(value := v)] else dom
  }

  /** The page after `fillTitle`: the English title written first, then the Arabic one. */
  function FilledTitles(dom: seq<Element>, lists: CandidateLists, titleEn: string, titleAr: string): seq<Element>
  {
    WriteValue(WriteValue(dom, FieldLookup(dom, lists.titleEn), titleEn), FieldLookup(dom, lists.titleAr), titleAr)
  }

  /** `fillTitle` touches at most the two title slots, and only with non-empty values. */
  lemma FillTitleTouchesOnlyTitleSlots(dom: seq<Element>, lists: CandidateLists, titleEn: string, titleAr: string, j: nat)
    requires j < |dom|
    requires titleEn == "" || FieldLookup(dom, lists.titleEn) != Some(j)
    requires titleAr == "" || FieldLookup(dom, lists.titleAr) != Some(j)
    ensures |FilledTitles(dom, lists, titleEn, titleAr)| == |dom|
    ensures FilledTitles(dom, lists, titleEn, titleAr)[j] == dom[j]
  {
  }

  /** On a page whose only title field is named "title_ar", the Arabic title overwrites the English one. */
  lemma ArabicTitleOverwritesEnglish(titleEn: string, titleAr: string)
    requires titleEn != "" && titleAr != ""
    ensures var dom := [Element(Input, Some("title_ar"), None, None, Some("text"), None, {}, "")];
            FilledTitles(dom, SourceCandidates, titleEn, titleAr)[0].value == titleAr
  {
    ArabicTitleFieldFillsBothSlots();
  }

  // ---------------------------------------------------------------- panel placement

  /** The selectors `injectAIHelper` tries. */
  datatype Selector = MultipartForm | ClassName(c: string) | TagName(t: Tag)

  const TargetLocations: seq<Selector> :=
    [MultipartForm, ClassName("upload-form"), ClassName("metadata-form"), TagName(Form), TagName(Body)]

  predicate SelectorMatches(e: Element, s: Selector)
  {
    match s
    case MultipartForm => e.tag == Form && e.enctype == Some("multipart/form-data")
    case ClassName(c) => c in e.classes
    case TagName(t) => e.tag == t
  }

  function Resolve(dom: seq<Element>, s: Selector): (r: Option<nat>)
    ensures r.Some? ==> r.value < |dom| && SelectorMatches(dom[r.value], s)
    ensures r.None? <==> forall j :: 0 <= j < |dom| ==> !SelectorMatches(dom[j], s)
  {
    FirstIndex(dom, Target(s))
  }

  /** The first selector from position `from` on that resolves, with the element it resolves to. */
  function FirstResolving(dom: seq<Element>, sels: seq<Selector>, from: nat): (r: Option<(nat, nat)>)
    requires from <= |sels|
    ensures r.Some? ==> from <= r.value.0 < |sels| && Resolve(dom, sels[r.value.0]) == Some(r.value.1) &&
                        forall s :: from <= s < r.value.0 ==> Resolve(dom, sels[s]).None?
    ensures r.None? ==> forall s :: from <= s < |sels| ==> Resolve(dom, sels[s]).None?
    decreases |sels| - from
  {
    if from == |sels| then None
    else
      match Resolve(dom, sels[from])
      case Some(i) => Some((from, i))
      case None => FirstResolving(dom, sels, from + 1)
  }

  /** Where the panel goes: the element it is inserted into, and whether it is styled as a floating panel. */
  datatype Placement = Placement(target: nat, floating: bool)

  function PanelTarget(dom: seq<Element>): (r: Option<Placement>)
    ensures r.Some? ==> r.value.target < |dom|
  {
    match FirstResolving(dom, TargetLocations, 0)
    case None => None
    case Some((s, i)) => Some(Placement(i, TargetLocations[s] == TagName(Body)))
  }

  predicate IsFormLike(e: Element)
  {
    e.tag == Form || "upload-form" in e.classes || "metadata-form" in e.classes
  }

  /**
   * The panel floats exactly when it goes into the body because nothing on the
   * page is a form or carries one of the two form classes; otherwise it goes
   * into such an element.
   */
  lemma FloatingOnlyWithoutForms(dom: seq<Element>, p: Placement)
    requires PanelTarget(dom) == Some(p)
    ensures p.target < |dom|
    ensures p.floating ==> dom[p.target].tag == Body
    ensures p.floating <==> forall j :: 0 <= j < |dom| ==> !IsFormLike(dom[j])
    ensures !p.floating ==> IsFormLike(dom[p.target])
  {
    var (s, i) := FirstResolving(dom, TargetLocations, 0).value;
    if s == 4 {
      forall j | 0 <= j < |dom| ensures !IsFormLike(dom[j]) {
        assert !SelectorMatches(dom[j], TargetLocations[1]);
        assert !SelectorMatches(dom[j], TargetLocations[2]);
        assert !SelectorMatches(dom[j], TargetLocations[3]);
      }
    } else {
      assert SelectorMatches(dom[i], TargetLocations[s]);
      assert TargetLocations[s] != TagName(Body);
    }
  }

  /** The panel is placed nowhere exactly when the page has neither a body nor anything form-like. */
  lemma NoTargetWithoutBody(dom: seq<Element>)
    ensures PanelTarget(dom).None? <==> forall j :: 0 <= j < |dom| ==> !IsFormLike(dom[j]) && dom[j].tag != Body
  {
    if PanelTarget(dom).None? {
      forall j | 0 <= j < |dom| ensures !IsFormLike(dom[j]) && dom[j].tag != Body {
        assert !SelectorMatches(dom[j], TargetLocations[1]);
        assert !SelectorMatches(dom[j], TargetLocations[2]);
        assert !SelectorMatches(dom[j], TargetLocations[3]);
        assert !SelectorMatches(dom[j], TargetLocations[4]);
      }
    } else {
      var (s, i) := FirstResolving(dom, TargetLocations, 0).value;
      assert SelectorMatches(dom[i], TargetLocations[s]);
    }
  }

  // ---------------------------------------------------------------- the inserted panel

  /**
   * The panel as the page's queries see it, in document order: its container
   * and the form controls inside it (the file input, the two title inputs, the
   * category and license selects). Their live values are kept in the `Panel`
   * record; on the page they keep the values they were inserted with.
   */
  const PanelElements: seq<Element> := [
    Element(OtherTag, None, Some("arabstock-ai-helper"), None, None, None, {}, ""),
    Element(Input, None, Some("aiFileInput"), None, Some("file"), None, {}, ""),
    Element(Input, None, Some("aiTitleEn"), Some("English title..."), Some("text"), None, {"ai-input"}, ""),
    Element(Input, None, Some("aiTitleAr"), Some("العنوان بالعربية..."), Some("text"), None, {"ai-input"}, ""),
    Element(Select, None, Some("aiCategory"), None, None, None, {"ai-input"}, ""),
    Element(Select, None, Some("aiLicense"), None, None, None, {"ai-input"}, "")]

  /** `target.insertBefore(panel, target.firstChild)`: the panel's elements follow the target in document order. */
  function InsertPanel(dom: seq<Element>, at: nat): (r: seq<Element>)
    requires at < |dom|
    ensures |r| == |dom| + |PanelElements|
    ensures forall j :: 0 <= j <= at ==> r[j] == dom[j]
    ensures forall j :: 0 <= j < |PanelElements| ==> r[at + 1 + j] == PanelElements[j]
    ensures forall j :: at < j < |dom| ==> r[|PanelElements| + j] == dom[j]
  {
    dom[..at + 1] + PanelElements + dom[at + 1..]
  }

  /** The page once `injectAIHelper` has run: the panel inside the first target that resolves, if any. */
  function AfterInjection(dom: seq<Element>): seq<Element>
  {
    match PanelTarget(dom)
    case None => dom
    case Some(p) => InsertPanel(dom, p.target)
  }

  /** Outside the panel, an element of the page after insertion is an element of the page before. */
  lemma InsertPanelOutside(dom: seq<Element>, at: nat, i: nat)
    requires at < |dom| && i < |dom| + |PanelElements|
    ensures i <= at ==> InsertPanel(dom, at)[i] == dom[i]
    ensures at + |PanelElements| < i ==> InsertPanel(dom, at)[i] == dom[i - |PanelElements|]
  {
    if at + |PanelElements| < i {
      assert InsertPanel(dom, at)[|PanelElements| + (i - |PanelElements|)] == dom[i - |PanelElements|];
    }
  }

  /** A slot the host page cannot fill is, after insertion, only ever filled with one of the panel's own elements. */
  lemma UnmatchedSlotFoundInPanel(dom: seq<Element>, names: seq<string>, at: nat, i: nat)
    requires at < |dom| && FieldLookup(dom, names).None?
    requires FieldLookup(InsertPanel(dom, at), names) == Some(i)
    ensures at < i <= at + |PanelElements|
  {
    var a := InsertPanel(dom, at);
    FieldLookupNoneIff(dom, names);
    FieldLookupSound(a, names, i);
    var k: nat, t: Tier :| Wins(a, names, k, t, i);
    InsertPanelOutside(dom, at, i);
  }

  /** The placeholders of `#aiTitleEn` and `#aiTitleAr` contain the first title candidates of their slots. */
  lemma PanelTitlePlaceholders()
    ensures TierMatches(PanelElements[2], "title", ByPlaceholder)
    ensures TierMatches(PanelElements[3], "عنوان", ByPlaceholder)
  {
    var en := "English title...";
    assert en[8..13] == "title";
    IncludesAt(en, "title", 8);
    var ar := "العنوان بالعربية...";
    assert ar[2..7] == "عنوان";
    IncludesAt(ar, "عنوان", 2);
  }

  /** The panel's title inputs match "title" and "عنوان" by placeholder, so after insertion neither title slot is null. */
  lemma PanelFillsTitleSlots(dom: seq<Element>, at: nat)
    requires at < |dom|
    ensures FieldLookup(InsertPanel(dom, at), TitleEnNames).Some?
    ensures FieldLookup(InsertPanel(dom, at), TitleArNames).Some?
  {
    var a := InsertPanel(dom, at);
    PanelTitlePlaceholders();
    assert a[at + 1 + 2] == PanelElements[2];
    assert !Unmatched(a, TitleEnNames[0], ByPlaceholder);
    FieldLookupNoneIff(a, TitleEnNames);
    assert a[at + 1 + 3] == PanelElements[3];
    assert !Unmatched(a, TitleArNames[2], ByPlaceholder);
    FieldLookupNoneIff(a, TitleArNames);
  }

  lemma {:induction false} LongerNotIncluded(s: string, sub: string)
    requires |s| < |sub|
    ensures !Includes(s, sub)
    decreases |s|
  {
    if |s| > 0 {
      LongerNotIncluded(s[1..], sub);
    }
  }

  /**
   * When no host element matches "title", the English title slot is decided by
   * that first candidate after insertion, and so is one of the panel's elements,
   * whatever the host's "name" or "title_en" fields are.
   */
  lemma TitleEnFromPanel(dom: seq<Element>, at: nat)
    requires at < |dom| && forall t :: Unmatched(dom, "title", t)
    ensures FieldLookup(InsertPanel(dom, at), TitleEnNames).Some?
    ensures at < FieldLookup(InsertPanel(dom, at), TitleEnNames).value <= at + |PanelElements|
  {
    var a := InsertPanel(dom, at);
    PanelTitlePlaceholders();
    assert a[at + 1 + 2] == PanelElements[2];
    assert !Unmatched(a, "title", ByPlaceholder);
    var i := CandidateLookup(a, "title").value;
    assert FieldLookup(a, TitleEnNames) == Some(i);
    CandidateLookupSound(a, "title", i);
    InsertPanelOutside(dom, at, i);
    assert Unmatched(dom, "title", ByName) && Unmatched(dom, "title", ById) && Unmatched(dom, "title", ByPlaceholder);
  }

  /** An upload form whose only field is named "name". */
  const NameOnlyUpload: seq<Element> := [
    Element(Form, None, None, None, None, Some("multipart/form-data"), {}, ""),
    Element(Input, Some("name"), None, None, Some("text"), None, {}, "")]

  lemma NameOnlyUploadHostSlots()
    ensures forall t :: Unmatched(NameOnlyUpload, "title", t)
    ensures FieldLookup(NameOnlyUpload, TitleEnNames) == Some(1)
    ensures FieldLookup(NameOnlyUpload, TitleArNames).None?
  {
    var dom := NameOnlyUpload;
    LongerNotIncluded("name", "title");
    assert Unmatched(dom, "title", ByName) && Unmatched(dom, "title", ById) && Unmatched(dom, "title", ByPlaceholder);
    AllTiersUnmatched(dom, "title");
    assert StartsWith("name", "name");
    assert Wins(dom, TitleEnNames, 1, ByName, 1);
    FieldLookupComplete(dom, TitleEnNames, 1, ByName, 1);
    LongerNotIncluded("name", "title_ar");
    LongerNotIncluded("name", "arabic_title");
    LongerNotIncluded("name", "عنوان");
    forall k, t | 0 <= k < |TitleArNames| ensures Unmatched(dom, TitleArNames[k], t) {
    }
    FieldLookupNoneIff(dom, TitleArNames);
  }

  /**
   * On `NameOnlyUpload`, before injection the English title slot is the "name"
   * field and the Arabic one is null; after injection both slots are elements
   * of the panel, so `fillTitle` writes into the panel and not into the form.
   */
  lemma PanelShadowsHostTitleField()
    ensures FieldLookup(NameOnlyUpload, TitleEnNames) == Some(1)
    ensures FieldLookup(NameOnlyUpload, TitleArNames).None?
    ensures PanelTarget(NameOnlyUpload) == Some(Placement(0, false))
    ensures FieldLookup(AfterInjection(NameOnlyUpload), TitleEnNames).Some?
    ensures 1 <= FieldLookup(AfterInjection(NameOnlyUpload), TitleEnNames).value <= |PanelElements|
    ensures FieldLookup(AfterInjection(NameOnlyUpload), TitleArNames).Some?
    ensures 1 <= FieldLookup(AfterInjection(NameOnlyUpload), TitleArNames).value <= |PanelElements|
  {
    var dom := NameOnlyUpload;
    NameOnlyUploadHostSlots();
    assert SelectorMatches(dom[0], TargetLocations[0]);
    assert FirstResolving(dom, TargetLocations, 0) == Some((0, 0));
    TitleEnFromPanel(dom, 0);
    PanelFillsTitleSlots(dom, 0);
    UnmatchedSlotFoundInPanel(dom, TitleArNames, 0, FieldLookup(InsertPanel(dom, 0), TitleArNames).value);
  }

  // ---------------------------------------------------------------- keywords and SEO score

  /** The keyword entries of a comma-separated field: split on ",", keep the pieces that are not blank. */
  function KeywordCount(field: string): (n: nat)
    ensures n <= |Split(field, ',')|
  {
    |NonBlank(Split(field, ','))|
  }

  lemma {:induction false} SplitCommaSpaceJoin(kws: seq<string>)
    requires |kws| >= 1
    requires forall i :: 0 <= i < |kws| ==> ',' !in kws[i]
    ensures |Split(Join(kws, ", "), ',')| == |kws|
    ensures Split(Join(kws, ", "), ',')[0] == kws[0]
    ensures forall i :: 1 <= i < |kws| ==> Split(Join(kws, ", "), ',')[i] == " " + kws[i]
    decreases |kws|
  {
    if |kws| == 1 {
      SplitNoSeparator(kws[0], ',');
    } else {
      var rest := kws[1..];
      var x := Join(rest, ", ");
      assert Join(kws, ", ") == kws[0] + [','] + (" " + x);
      SplitAfterPiece(kws[0], ',', " " + x);
      SplitCommaSpaceJoin(rest);
      assert (" " + x)[1..] == x;
      var tail := Split(" " + x, ',');
      assert tail == [[' '] + Split(x, ',')[0]] + Split(x, ',')[1..];
      forall i | 1 <= i < |kws| ensures Split(Join(kws, ", "), ',')[i] == " " + kws[i] {
        assert Split(Join(kws, ", "), ',')[i] == tail[i - 1];
        if i > 1 {
          assert tail[i - 1] == Split(x, ',')[i - 1] == " " + rest[i - 1];
        }
      }
    }
  }

  lemma BlankAfterSpace(k: string)
    ensures IsBlank(" " + k) <==> IsBlank(k)
  {
    assert forall i :: 0 <= i < |k| ==> (" " + k)[i + 1] == k[i];
    assert IsJsWhitespace((" " + k)[0]);
  }

  lemma {:induction false} NonBlankSameShape(a: seq<string>, b: seq<string>)
    requires |a| == |b|
    requires forall i :: 0 <= i < |a| ==> (IsBlank(a[i]) <==> IsBlank(b[i]))
    ensures |NonBlank(a)| == |NonBlank(b)|
    decreases |a|
  {
    if |a| > 0 {
      assert forall i :: 0 <= i < |a| - 1 ==> a[1..][i] == a[i + 1] && b[1..][i] == b[i + 1];
      NonBlankSameShape(a[1..], b[1..]);
    }
  }

  /** Keywords shown joined with ", " are counted back one for one (those that are not blank), if none contains a comma. */
  lemma KeywordCountOfJoined(kws: seq<string>)
    requires forall i :: 0 <= i < |kws| ==> ',' !in kws[i]
    ensures KeywordCount(Join(kws, ", ")) == |NonBlank(kws)|
  {
    if |kws| == 0 {
      assert Split("", ',') == [""];
      assert IsBlank("");
    } else {
      SplitCommaSpaceJoin(kws);
      forall i | 1 <= i < |kws| ensures IsBlank(Split(Join(kws, ", "), ',')[i]) <==> IsBlank(kws[i]) {
        BlankAfterSpace(kws[i]);
      }
      NonBlankSameShape(Split(Join(kws, ", "), ','), kws);
    }
  }

  function Weight(holds: bool, points: nat): nat
  {
    if holds then points else 0
  }

  /** The SEO score: the weights 20, 20, 30, 20 and 10 of the conditions that hold. */
  function SeoScore(titleEn: string, titleAr: string, totalKeywords: int, category: string): (r: nat)
    ensures r <= 100 && r % 10 == 0
    ensures r == 100 <==> |titleEn| > 10 && |titleAr| > 5 && 10 <= totalKeywords <= 50 && category != ""
  {
    Weight(|titleEn| > 10, 20) + Weight(|titleAr| > 5, 20) +
    Weight(totalKeywords >= 10, 30) + Weight(totalKeywords <= 50, 20) + Weight(category != "", 10)
  }

  /** A JavaScript number as far as the score needs it: NaN compares false and absorbs addition. */
  datatype JsNumber = Finite(n: int) | NotANumber

  function Plus(a: JsNumber, b: JsNumber): JsNumber
  {
    if a.Finite? && b.Finite? then Finite(a.n + b.n) else NotANumber
  }

  predicate Greater(a: JsNumber, n: int) { a.Finite? && a.n > n }
  predicate AtLeast(a: JsNumber, n: int) { a.Finite? && a.n >= n }
  predicate AtMost(a: JsNumber, n: int) { a.Finite? && a.n <= n }

  /**
   * The score as written: `.lenght` is undefined on strings and arrays, so both
   * title tests compare undefined (NaN) and the keyword total is NaN.
   */
  function SeoScoreAsWritten(titleEn: string, titleAr: string, keywordsEn: string, keywordsAr: string, category: string): int
  {
    var lenght := NotANumber;  // ToNumber(undefined)
    var totalKeywords := Plus(lenght, lenght);
    var score := Weight(Greater(lenght, 10), 20) + Weight(Greater(lenght, 5), 20) +
                 Weight(AtLeast(totalKeywords, 10), 30) + Weight(AtMost(totalKeywords, 50), 20) +
                 Weight(category != "", 10);
    if score < 100 then score else 100
  }

  /** As written, the score only ever reflects the category: 10 with one, 0 without. */
  lemma SeoScoreAsWrittenOnlySeesCategory(titleEn: string, titleAr: string, keywordsEn: string, keywordsAr: string, category: string)
    ensures SeoScoreAsWritten(titleEn, titleAr, keywordsEn, keywordsAr, category) == if category != "" then 10 else 0
  {
  }

  /** A complete, well-formed entry: the corrected score is 100, the score as written is 10. */
  lemma SeoScoreDiscrepancy()
    ensures SeoScore("Desert sunset over dunes", "غروب الصحراء", 12, "Nature") == 100
    ensures SeoScoreAsWritten("Desert sunset over dunes", "غروب الصحراء", "a,b,c,d,e,f,g,h,i,j,k,l", "", "Nature") == 10
  {
    assert |"Desert sunset over dunes"| == 24;
    assert |"غروب الصحراء"| == 12;
  }

  // ---------------------------------------------------------------- the helper state

  /** What the server's analysis carries; every part may be missing. */
  datatype Metadata = Metadata(
    titleEn: Option<string>, titleAr: Option<string>,
    keywordsEn: Option<seq<string>>, keywordsAr: Option<seq<string>>,
    categoryEn: Option<string>, license: Option<string>)

  /** The outcome of the content script's own analysis request. */
  datatype AnalyzeResponse = FetchFailed | HttpError(status: nat) | Analysed(metadata: Metadata)

  /** The helper panel's inputs, counters and visibility. */
  datatype Panel = Panel(
    titleEn: string, titleAr: string, keywordsEn: string, keywordsAr: string,
    category: string, license: string,
    keywordCount: nat, seoScore: nat,
    metadataVisible: bool, loadingVisible: bool,
    activeButtons: set<string>, enVisible: bool, arVisible: bool)

  const InitialPanel := Panel("", "", "", "", "", "", 0, 0, false, false, {"en"}, true, false)

  const LanguageButtons: set<string> := {"en", "ar"}

  const AnalyzeFailedMessage := "Failed to analyze image. Please try again!"
  const TitleFilledMessage := "Title filled successfully cuuyyy!"

  /** One language group is shown and the other hidden, with at most one active button. */
  predicate LanguageExclusive(p: Panel)
  {
    p.enVisible != p.arVisible && p.activeButtons <= LanguageButtons && |p.activeButtons| <= 1
  }

  function OrEmpty(s: Option<string>): string
  {
    if s.Some? then s.value else ""
  }

  function OrNone(s: Option<seq<string>>): seq<string>
  {
    if s.Some? then s.value else []
  }

  /** The option values of the category select; the first, unlabelled option has the value "". */
  const CategoryOptions: set<string> := {"", "People", "Business", "Technology", "Culture", "Architecture",
                                         "Nature", "Food", "Travel", "Education", "Healthcare"}

  /** The option values of the license select. */
  const LicenseOptions: set<string> := {"", "commercial", "editorial"}

  /** Assigning a select's `value`: a value no option carries selects nothing, and the select then reads "". */
  function SelectValue(v: string, options: set<string>): (r: string)
    ensures v in options ==> r == v
    ensures v !in options ==> r == ""
  {
    if v in options then v else ""
  }

  /** The panel once `displayMetadata` has shown `m` and `updateStats` has recounted it. */
  function Displayed(p: Panel, m: Metadata): (r: Panel)
    ensures r.titleEn == OrEmpty(m.titleEn) && r.titleAr == OrEmpty(m.titleAr)
    ensures r.category in CategoryOptions && r.license in LicenseOptions
    ensures r.keywordCount == KeywordCount(r.keywordsEn) + KeywordCount(r.keywordsAr)
    ensures r.seoScore == SeoScore(r.titleEn, r.titleAr, r.keywordCount, r.category)
    ensures r.metadataVisible
    ensures r.loadingVisible == p.loadingVisible && r.activeButtons == p.activeButtons
    ensures r.enVisible == p.enVisible && r.arVisible == p.arVisible
  {
    var q := p.(titleEn := OrEmpty(m.titleEn), titleAr := OrEmpty(m.titleAr),
                keywordsEn := Join(OrNone(m.keywordsEn), ", "), keywordsAr := Join(OrNone(m.keywordsAr), ", "),
                category := SelectValue(OrEmpty(m.categoryEn), CategoryOptions),
                license := SelectValue(OrEmpty(m.license), LicenseOptions));
    var count := KeywordCount(q.keywordsEn) + KeywordCount(q.keywordsAr);
    q.(keywordCount := count, seoScore := SeoScore(q.titleEn, q.titleAr, count, q.category), metadataVisible := true)
  }

  /** Shown keywords are counted back one for one, leaving out the blank ones, when none contains a comma. */
  lemma DisplayedKeywordCount(p: Panel, m: Metadata)
    requires forall i :: 0 <= i < |OrNone(m.keywordsEn)| ==> ',' !in OrNone(m.keywordsEn)[i]
    requires forall i :: 0 <= i < |OrNone(m.keywordsAr)| ==> ',' !in OrNone(m.keywordsAr)[i]
    ensures Displayed(p, m).keywordCount == |NonBlank(OrNone(m.keywordsEn))| + |NonBlank(OrNone(m.keywordsAr))|
  {
    KeywordCountOfJoined(OrNone(m.keywordsEn));
    KeywordCountOfJoined(OrNone(m.keywordsAr));
  }

  /**
   * A category the select does not offer (the server also names Sports, Art,
   * Religion, Fashion and Transportation) is shown as no category and earns
   * the score nothing, exactly as if the server had sent none.
   */
  lemma UnofferedCategoryScoresNothing(p: Panel, m: Metadata)
    requires m.categoryEn.Some? && m.categoryEn.value !in CategoryOptions
    ensures Displayed(p, m).category == ""
    ensures Displayed(p, m) == Displayed(p, m.(categoryEn := None))
  {
  }

  /** A shown license is one the select offers, or none. */
  lemma DisplayedLicense(p: Panel, m: Metadata)
    ensures Displayed(p, m).license == (if OrEmpty(m.license) in {"commercial", "editorial"} then OrEmpty(m.license) else "")
  {
  }

  class ContentHelper {
    /** The candidate lists of `detectFormFields`; the constructor sets them to `SourceCandidates`. */
    const names: CandidateLists
    var url: string
    var page: seq<Element>
    var isProcessing: bool
    var currentImageData: Option<string>
    var formFields: Option<FormFields>
    var panel: Panel
    /** Elements the panel was inserted into, one entry per insertion. */
    var insertions: seq<Placement>
    /** Elements `triggerChange` was called on, in order. */
    var changed: seq<nat>
    /** Messages shown by `showError` and `showSuccess`, in order. */
    var messages: seq<string>
    /** Whether the page's mutation observer is registered. */
    var observing: bool
    /** Whether `setupUI` still waits for DOMContentLoaded. */
    var setupPending: bool

    /**
     * The constructor runs `init`: while the document is still loading, `setupUI`
     * waits for DOMContentLoaded; otherwise it runs at once.
     */
    constructor (url: string, page: seq<Element>, loading: bool)
      ensures names == SourceCandidates && this.url == url && setupPending == loading
      ensures !isProcessing && currentImageData.None? && formFields.None?
      ensures panel == InitialPanel && LanguageExclusive(panel)
      ensures changed == [] && messages == []
      ensures loading || !IsUploadPage(url, page) ==> this.page == page && insertions == [] && !observing
      ensures !loading && IsUploadPage(url, page) ==>
        this.page == AfterInjection(page) && insertions == OptionSeq(PanelTarget(page)) && observing
    {
      names := SourceCandidates;
      this.url := url;
      this.page := page;
      setupPending := loading;
      isProcessing := false;
      currentImageData := None;
      formFields := None;
      panel := InitialPanel;
      insertions := [];
      changed := [];
      messages := [];
      observing := false;
      new;
      if !loading {
        SetupUI();
      }
    }

    /** `setupUI`: on an upload page, place the panel and start watching the page for new fields. */
    method SetupUI()
      modifies this`insertions, this`observing, this`page
      ensures old(IsUploadPage(url, page)) ==>
        page == AfterInjection(old(page)) && insertions == old(insertions) + OptionSeq(PanelTarget(old(page))) && observing
      ensures !old(IsUploadPage(url, page)) ==>
        page == old(page) && insertions == old(insertions) && observing == old(observing)
    {
      if IsUploadPage(url, page) {
        InjectAIHelper();
        observing := true;
      }
    }

    /** The DOMContentLoaded listener `init` registers while the document loads: it runs `setupUI` once. */
    method OnDomContentLoaded()
      modifies this`setupPending, this`insertions, this`observing, this`page
      ensures !setupPending
      ensures old(setupPending) && old(IsUploadPage(url, page)) ==>
        page == AfterInjection(old(page)) && insertions == old(insertions) + OptionSeq(PanelTarget(old(page))) && observing
      ensures !old(setupPending) || !old(IsUploadPage(url, page)) ==>
        page == old(page) && insertions == old(insertions) && observing == old(observing)
    {
      if setupPending {
        setupPending := false;
        SetupUI();
      }
    }

    /** The mutation observer's callback: a child-list change re-detects the page's fields. */
    method OnMutation(childList: bool)
      modifies this`formFields
      ensures childList ==> formFields == Some(DetectedFields(page, names))
      ensures !childList ==> formFields == old(formFields)
    {
      if childList {
        DetectFormFields();
      }
    }

    /**
     * `injectAIHelper`: insert the panel into the first target that exists, and
     * into no other; from then on the page's queries also see the panel's controls.
     */
    method InjectAIHelper()
      modifies this`insertions, this`page
      ensures insertions == old(insertions) + OptionSeq(PanelTarget(old(page)))
      ensures page == AfterInjection(old(page))
      ensures |insertions| <= |old(insertions)| + 1
    {
      var injected := false;
      var k := 0;
      while k < |TargetLocations|
        invariant 0 <= k <= |TargetLocations|
        invariant !injected && insertions == old(insertions) && page == old(page)
        invariant FirstResolving(page, TargetLocations, k) == FirstResolving(page, TargetLocations, 0)
      {
        var selector := TargetLocations[k];
        var target := Resolve(page, selector);
        if target.Some? && !injected {
          var floating := selector == TagName(Body);
          insertions := insertions + [Placement(target.value, floating)];
          page := InsertPanel(page, target.value);
          injected := true;
          break;
        }
        k := k + 1;
      }
    }

    /** `findField`: try each candidate by name, then id, then placeholder; return the first hit. */
    method FindField(possibleNames: seq<string>) returns (field: Option<nat>)
      ensures field == FieldLookup(page, possibleNames)
    {
      var k := 0;
      while k < |possibleNames|
        invariant 0 <= k <= |possibleNames|
        invariant FieldLookup(page, possibleNames) == FieldLookup(page, possibleNames[k..])
      {
        var name := possibleNames[k];
        assert possibleNames[k..][1..] == possibleNames[k + 1..];
        field := Query(page, name, ByName);
        if field.Some? { return; }
        field := Query(page, name, ById);
        if field.Some? { return; }
        field := Query(page, name, ByPlaceholder);
        if field.Some? { return; }
        k := k + 1;
      }
      return None;
    }

    /** `detectFormFields`: exactly the six slots, each from its own candidate list. */
    method DetectFormFields()
      modifies this`formFields
      ensures formFields == Some(DetectedFields(page, names))
    {
      var titleEn := FindField(names.titleEn);
      var titleAr := FindField(names.titleAr);
      var keywordsEn := FindField(names.keywordsEn);
      var keywordsAr := FindField(names.keywordsAr);
      var category := FindField(names.category);
      var license := FindField(names.license);
      formFields := Some(FormFields(titleEn, titleAr, keywordsEn, keywordsAr, category, license));
    }

    /** `fillTitle`: write each generated title into its page field when both exist. */
    method FillTitle()
      modifies this`formFields, this`page, this`changed, this`messages
      ensures formFields == Some(DetectedFields(old(page), names))
      ensures page == FilledTitles(old(page), names, panel.titleEn, panel.titleAr)
      ensures var f := formFields.value;
        changed == old(changed)
        + (if f.titleEn.Some? && panel.titleEn != "" then [f.titleEn.value] else [])
        + (if f.titleAr.Some? && panel.titleAr != "" then [f.titleAr.value] else [])
      ensures messages == old(messages) + [TitleFilledMessage]
    {
      DetectFormFields();
      var titleEn := panel.titleEn;
      var titleAr := panel.titleAr;
      var en := formFields.value.titleEn;
      var ar := formFields.value.titleAr;
      if en.Some? && titleEn != "" {
        page := page[en.value := page[en.value].(value := titleEn)];
        changed := changed + [en.value];
      }
      if ar.Some? && titleAr != "" {
        page := page[ar.value := page[ar.value].(value := titleAr)];
        changed := changed + [ar.value];
      }
      messages := messages + [TitleFilledMessage];
    }

    /**
     * `updateStats`: count the keyword entries of both fields and accumulate the
     * SEO score, with `.length` where the source has `.lenght` (corrected; README,
     * Findings; the score as written is `SeoScoreAsWritten`).
     */
    method UpdateStats()
      modifies this`panel
      ensures panel.keywordCount == KeywordCount(old(panel).keywordsEn) + KeywordCount(old(panel).keywordsAr)
      ensures panel == old(panel).(keywordCount := panel.keywordCount,
                                   seoScore := SeoScore(old(panel).titleEn, old(panel).titleAr, panel.keywordCount, old(panel).category))
    {
      var p := panel;
      var keywordsEn := NonBlank(Split(p.keywordsEn, ','));
      var keywordsAr := NonBlank(Split(p.keywordsAr, ','));
      var totalKeywords := |keywordsEn| + |keywordsAr|;
      var seoScore := 0;
      if |p.titleEn| > 10 { seoScore := seoScore + 20; }
      if |p.titleAr| > 5 { seoScore := seoScore + 20; }
      if totalKeywords >= 10 { seoScore := seoScore + 30; }
      if totalKeywords <= 50 { seoScore := seoScore + 20; }
      if p.category != "" { seoScore := seoScore + 10; }
      panel := p.(keywordCount := totalKeywords, seoScore := if seoScore < 100 then seoScore else 100);
    }

    /** `displayMetadata`: show the generated metadata, then recount. */
    method DisplayMetadata(m: Metadata)
      modifies this`panel
      ensures panel == Displayed(old(panel), m)
    {
      panel := panel.(titleEn := OrEmpty(m.titleEn), titleAr := OrEmpty(m.titleAr),
                      keywordsEn := Join(OrNone(m.keywordsEn), ", "), keywordsAr := Join(OrNone(m.keywordsAr), ", "),
                      category := SelectValue(OrEmpty(m.categoryEn), CategoryOptions),
                      license := SelectValue(OrEmpty(m.license), LicenseOptions));
      UpdateStats();
      panel := panel.(metadataVisible := true);
    }

    /**
     * `processImage`: refuse while another analysis is in progress; otherwise mark
     * the helper busy, remember the image, show the result or the error, and
     * always end not busy with the spinner hidden.
     */
    method ProcessImage(imageDataUrl: string, response: AnalyzeResponse)
      modifies this`isProcessing, this`currentImageData, this`panel, this`messages
      ensures old(isProcessing) ==>
        isProcessing && currentImageData == old(currentImageData) && panel == old(panel) && messages == old(messages)
      ensures !old(isProcessing) ==> !isProcessing && currentImageData == Some(imageDataUrl) && !panel.loadingVisible
      ensures !old(isProcessing) && response.Analysed? ==>
        messages == old(messages) && panel == Displayed(old(panel), response.metadata).(loadingVisible := false)
      ensures !old(isProcessing) && !response.Analysed? ==>
        messages == old(messages) + [AnalyzeFailedMessage] && panel == old(panel).(loadingVisible := false)
    {
      if isProcessing {
        return;
      }
      isProcessing := true;
      panel := panel.(loadingVisible := true);
      currentImageData := Some(imageDataUrl);
      match response {
        case Analysed(m) =>
          DisplayMetadata(m);
        case _ =>
          messages := messages + [AnalyzeFailedMessage];
      }
      isProcessing := false;
      panel := panel.(loadingVisible := false);
    }

    /** `switchLanguage`: activate exactly the chosen button and show exactly that language's fields. */
    method SwitchLanguage(lang: string)
      modifies this`panel
      ensures lang in LanguageButtons ==>
        panel == old(panel).(activeButtons := {lang}, enVisible := lang == "en", arVisible := lang != "en")
      ensures lang in LanguageButtons ==> LanguageExclusive(panel)
      ensures lang !in LanguageButtons ==> panel == old(panel).(activeButtons := {})
      ensures old(LanguageExclusive(panel)) ==> LanguageExclusive(panel)
    {
      panel := panel.(activeButtons := {});
      if lang !in LanguageButtons {
        // `document.querySelector('[data-lang=...]')` is null: the call throws here
        return;
      }
      panel := panel.(activeButtons := {lang});
      if lang == "en" {
        panel := panel.(enVisible := true, arVisible := false);
      } else {
        panel := panel.(enVisible := false, arVisible := true);
      }
    }
  }

  function OptionSeq<T>(o: Option<T>): seq<T>
  {
    if o.Some? then [o.value] else []
  }
}
