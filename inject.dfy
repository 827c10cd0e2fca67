/**
 * The script injected into the page's own JavaScript context: its
 * initialisation guard, the detection of the page's framework, the override of
 * `HTMLFormElement.prototype.submit` that announces upload-form submissions,
 * and the capture-phase `invalid` listener that announces validation errors.
 *
 * Forms and fields are referred to by an id; what the page's globals and the
 * form look like is given as plain values. The native `submit` is a parameter
 * whose result the override passes on.
 */
module Inject {
  import opened Wrappers
  import opened Js

  // ---------------------------------------------------------------- framework detection

  /** Whether each probe of `detectWebsiteFramework` is truthy on this page. */
  datatype Probes = Probes(react: bool, angular: bool, vue: bool, jquery: bool)

  /** The keys of the `frameworks` object, in the order `Object.keys` lists them. */
  const FrameworkOrder: seq<string> := ["react", "angular", "vue", "jquery"]

  const Vanilla := "vanilla"

  function Probe(p: Probes, key: string): bool
  {
    if key == "react" then p.react
    else if key == "angular" then p.angular
    else if key == "vue" then p.vue
    else if key == "jquery" then p.jquery
    else false
  }

  /** `keys.find(fw => frameworks[fw])` over the keys from position `from` on. */
  function FindFramework(p: Probes, keys: seq<string>, from: nat): (r: Option<nat>)
    requires from <= |keys|
    ensures r.Some? ==> from <= r.value < |keys| && Probe(p, keys[r.value]) &&
                        forall k :: from <= k < r.value ==> !Probe(p, keys[k])
    ensures r.None? <==> forall k :: from <= k < |keys| ==> !Probe(p, keys[k])
    decreases |keys| - from
  {
    if from == |keys| then None
    else if Probe(p, keys[from]) then Some(from)
    else FindFramework(p, keys, from + 1)
  }

  /** `detectWebsiteFramework`: the first truthy probe's key, or 'vanilla'. */
  function DetectFramework(p: Probes): (r: string)
    ensures r in FrameworkOrder || r == Vanilla
  {
    match FindFramework(p, FrameworkOrder, 0)
    case Some(k) => FrameworkOrder[k]
    case None => Vanilla
  }

  /** The result is 'vanilla' exactly when no probe is truthy. */
  lemma VanillaIffNoProbe(p: Probes)
    ensures DetectFramework(p) == Vanilla <==> !p.react && !p.angular && !p.vue && !p.jquery
  {
    var r := FindFramework(p, FrameworkOrder, 0);
    if r.None? {
      assert !Probe(p, FrameworkOrder[0]) && !Probe(p, FrameworkOrder[1]);
      assert !Probe(p, FrameworkOrder[2]) && !Probe(p, FrameworkOrder[3]);
    } else {
      assert FrameworkOrder[r.value] != Vanilla;
    }
  }

  /** A named framework is reported exactly when its probe is truthy and every earlier probe is not. */
  lemma FirstTruthyProbeWins(p: Probes, k: nat)
    requires k < |FrameworkOrder|
    ensures DetectFramework(p) == FrameworkOrder[k] <==>
            Probe(p, FrameworkOrder[k]) && forall j :: 0 <= j < k ==> !Probe(p, FrameworkOrder[j])
  {
    var r := FindFramework(p, FrameworkOrder, 0);
    assert forall i, j :: 0 <= i < j < |FrameworkOrder| ==> FrameworkOrder[i] != FrameworkOrder[j];
    if Probe(p, FrameworkOrder[k]) && forall j :: 0 <= j < k ==> !Probe(p, FrameworkOrder[j]) {
      assert r.Some? && r.value == k;
    }
  }

  /** React wins over everything; jQuery is reported only on a page without the other three. */
  lemma FrameworkPrecedence(p: Probes)
    ensures p.react ==> DetectFramework(p) == "react"
    ensures DetectFramework(p) == "jquery" <==> p.jquery && !p.react && !p.angular && !p.vue
  {
    FirstTruthyProbeWins(p, 0);
    FirstTruthyProbeWins(p, 3);
    assert Probe(p, FrameworkOrder[0]) == p.react && Probe(p, FrameworkOrder[1]) == p.angular;
    assert Probe(p, FrameworkOrder[2]) == p.vue && Probe(p, FrameworkOrder[3]) == p.jquery;
  }

  // ---------------------------------------------------------------- the submit override

  /**
   * A form's `enctype` IDL attribute: an enumerated attribute that only ever
   * reads as one of its three keywords (invalid or missing values read as the
   * URL-encoded default).
   */
  datatype Enctype = UrlEncoded | Multipart | TextPlain

  function EnctypeString(e: Enctype): (r: string)
    ensures r in {"application/x-www-form-urlencoded", "multipart/form-data", "text/plain"}
  {
    match e
    case UrlEncoded => "application/x-www-form-urlencoded"
    case Multipart => "multipart/form-data"
    case TextPlain => "text/plain"
  }

  /** What the override inspects: the enctype, whether there is a file input inside, the class list. */
  datatype FormInfo = FormInfo(enctype: Enctype, hasFileInput: bool, classes: set<string>)

  const MisspeltMultipart := "mulitpart/form-data"
  const UploadFormClass := "upload-form"

  /** The test at the top of the override, with the misspelt enctype literal. */
  predicate SubmitQualifiesAsWritten(f: FormInfo)
  {
    EnctypeString(f.enctype) == MisspeltMultipart || f.hasFileInput || UploadFormClass in f.classes
  }

  /** The test as intended: a multipart form, a form with a file input, or an 'upload-form'. */
  predicate SubmitQualifies(f: FormInfo)
  {
    f.enctype == Multipart || f.hasFileInput || UploadFormClass in f.classes
  }

  /** As written, the enctype test can never hold: only the other two tests decide. */
  lemma MisspeltEnctypeNeverMatches(f: FormInfo)
    ensures EnctypeString(f.enctype) != MisspeltMultipart
    ensures SubmitQualifiesAsWritten(f) <==> f.hasFileInput || UploadFormClass in f.classes
  {
    var s := EnctypeString(f.enctype);
    match f.enctype
    case Multipart => assert s[3] != MisspeltMultipart[3];
    case _ => assert |s| != |MisspeltMultipart|;
  }

  /** A multipart form with neither a file input nor the class is missed as written and caught as intended. */
  lemma MultipartFormMissedAsWritten()
    ensures var f := FormInfo(Multipart, false, {});
            !SubmitQualifiesAsWritten(f) && SubmitQualifies(f)
  {
    MisspeltEnctypeNeverMatches(FormInfo(Multipart, false, {}));
  }

  /** The intended test accepts every form the written one accepts. */
  lemma AsWrittenImpliesIntended(f: FormInfo)
    ensures SubmitQualifiesAsWritten(f) ==> SubmitQualifies(f)
  {
    MisspeltEnctypeNeverMatches(f);
  }

  // ---------------------------------------------------------------- the injector

  /**
   * The custom events the injector dispatches on `window`. A submission names
   * the form; the `FormData` it carries is that form's data, not modelled here.
   */
  datatype PageEvent =
    | FormSubmission(form: nat)
    | ValidationError(field: nat, error: string)

  class Injector {
    var initialized: bool
    var formCache: map<string, JsValue>
    var observerActive: bool
    var websiteAPI: JsValue
    /** `this.websiteFramework`: undefined until `detectWebsiteFramework` runs. */
    var websiteFramework: Option<string>
    /** A DOMContentLoaded listener that will run `setup` is registered. */
    var setupPending: bool
    /** `HTMLFormElement.prototype.submit` is the override. */
    var submitHooked: bool
    /** The capture-phase `invalid` listener is registered. */
    var validationHooked: bool
    /** Events dispatched on `window`, in order. */
    var events: seq<PageEvent>
    /** How many times the native `submit` was called. */
    var nativeSubmits: nat

    /** Setup runs at most once, detects the framework first, and hooks validation together with submission. */
    ghost predicate Valid()
      reads this
    {
      (setupPending ==> initialized && !submitHooked) &&
      (submitHooked ==> initialized && websiteFramework.Some? && validationHooked) &&
      (validationHooked ==> submitHooked)
    }

    /** The fields the constructor sets. */
    constructor ()
      ensures !initialized && formCache == map[] && !observerActive && websiteAPI == Null
      ensures websiteFramework.None? && !setupPending && !submitHooked && !validationHooked
      ensures events == [] && nativeSubmits == 0
      ensures Valid()
    {
      initialized := false;
      formCache := map[];
      observerActive := false;
      websiteAPI := Null;
      websiteFramework := None;
      setupPending := false;
      submitHooked := false;
      validationHooked := false;
      events := [];
      nativeSubmits := 0;
    }

    /** `init`: only the first call does anything; it sets up now, or on DOMContentLoaded while loading. */
    method Init(loading: bool, probes: Probes)
      requires Valid()
      modifies this`initialized, this`setupPending, this`websiteFramework, this`submitHooked, this`validationHooked
      ensures Valid()
      ensures old(initialized) ==>
        initialized == old(initialized) && setupPending == old(setupPending) &&
        websiteFramework == old(websiteFramework) && submitHooked == old(submitHooked) &&
        validationHooked == old(validationHooked)
      ensures !old(initialized) && loading ==>
        initialized && setupPending && websiteFramework == old(websiteFramework) && !submitHooked
      ensures !old(initialized) && !loading ==>
        initialized && !setupPending && websiteFramework == Some(DetectFramework(probes)) && submitHooked && validationHooked
    {
      if initialized {
        return;
      }
      if loading {
        setupPending := true;
      } else {
        Setup(probes);
      }
      initialized := true;
    }

    /** The DOMContentLoaded listener `init` registered. */
    method OnDomContentLoaded(probes: Probes)
      requires Valid()
      modifies this`setupPending, this`websiteFramework, this`submitHooked, this`validationHooked
      ensures Valid()
      ensures old(setupPending) ==>
        !setupPending && websiteFramework == Some(DetectFramework(probes)) && submitHooked && validationHooked
      ensures !old(setupPending) ==>
        setupPending == old(setupPending) && websiteFramework == old(websiteFramework) &&
        submitHooked == old(submitHooked) && validationHooked == old(validationHooked)
    {
      if setupPending {
        setupPending := false;
        Setup(probes);
      }
    }

    /** `setup`: detect the framework, then install the submit override and the validation listener. */
    method Setup(probes: Probes)
      modifies this`websiteFramework, this`submitHooked, this`validationHooked
      ensures websiteFramework == Some(DetectFramework(probes)) && submitHooked && validationHooked
    {
      websiteFramework := Some(DetectFramework(probes));
      HookFormHandlers();
    }

    /** `hookFormHandlers`: replace the prototype's `submit`, then hook validation. */
    method HookFormHandlers()
      modifies this`submitHooked, this`validationHooked
      ensures submitHooked && validationHooked
    {
      submitHooked := true;
      HookFormValidation();
    }

    method HookFormValidation()
      modifies this`validationHooked
      ensures validationHooked
    {
      validationHooked := true;
    }

    /**
     * `form.submit()`: with the override installed, a qualifying form first
     * announces itself; in every case the native `submit` runs exactly once and
     * its result is returned. Qualifying uses the corrected enctype spelling
     * (README, Findings).
     */
    method Submit(form: nat, info: FormInfo, nativeResult: JsValue) returns (r: JsValue)
      modifies this`events, this`nativeSubmits
      ensures r == nativeResult
      ensures nativeSubmits == old(nativeSubmits) + 1
      ensures submitHooked && SubmitQualifies(info) ==> events == old(events) + [FormSubmission(form)]
      ensures !(submitHooked && SubmitQualifies(info)) ==> events == old(events)
    {
      if submitHooked && SubmitQualifies(info) {
        events := events + [FormSubmission(form)];
      }
      nativeSubmits := nativeSubmits + 1;
      r := nativeResult;
    }

    /**
     * The `invalid` listener: an invalid field whose form is tracked is announced
     * with the field and its `validationMessage`. Whether the form is tracked is
     * what `isArabsStockForm` answers, given as `tracked`.
     */
    method OnInvalid(field: nat, validationMessage: string, tracked: bool)
      modifies this`events
      ensures validationHooked && tracked ==> events == old(events) + [ValidationError(field, validationMessage)]
      ensures !(validationHooked && tracked) ==> events == old(events)
    {
      if validationHooked && tracked {
        events := events + [ValidationError(field, validationMessage)];
      }
    }
  }
}
