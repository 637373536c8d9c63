/** The application shell (App.tsx): the page being shown, the triage form, the photos and
    multimodal files the user has chosen, and the history of diagnoses. Each handler is a
    method on `App`. A handler that awaits a remote call is split in two: `Begin…` does what
    happens before the call and returns the request it would send, `Finish…` takes the
    call's outcome. Object URLs and the clock are parameters; the history's `localStorage`
    copy is not modelled. */
module AppState {
  import opened Types

  datatype Page =
    | Home | LiveConsult | Loading | DiagnosisReport | MedicationReport | ErrorPage
    | PastDiagnoses | Surveillance | Orchestrator

  /** A file the user chose: its MIME type and the base64 text read from it. */
  datatype File = File(mimeType: string, base64: string)

  /** A diagnosis as returned by the service (its JSON body kept as text), and the time at
      which it was saved. */
  datatype Diagnosis = Diagnosis(report: string, timestamp: Option<int>)

  datatype MedicationInfo = MedicationInfo(report: string)

  /** What the page shows: `currentPage`, `loadingMessage`, `diagnosis`,
      `selectedPastDiagnosis`, `medicationInfo` and `error`. */
  datatype View = View(
    page: Page,
    loadingMessage: string,
    diagnosis: Option<Diagnosis>,
    selectedPast: Option<Diagnosis>,
    medicationInfo: Option<MedicationInfo>,
    error: Option<string>)

  /** The triage and medication photos and their preview URLs. */
  datatype Photos = Photos(
    triage: Option<File>,
    triagePreview: Option<string>,
    medication: Option<File>,
    medicationPreview: Option<string>)

  /** `multimodalFiles` and `multimodalPreviews` (a key set to `null`/`undefined` maps to
      `None`), and every object URL revoked so far. */
  datatype Multimodal = Multimodal(
    files: map<Modality, Option<File>>,
    previews: map<Modality, Option<string>>,
    revoked: set<string>)

  const InitialLoadingMessage := "Generating Diagnosis..."
  const TriageLoadingMessage := "Generating Fused Multimodal Diagnosis..."
  const MedicationLoadingMessage := "Analyzing Medication..."
  const LiveCallLoadingMessage := "Generating Fused Diagnosis from Live Call..."
  const MissingMedicationPhoto := "Please upload a photo of the medicine."
  const TriageErrorPrefix := "An error occurred while generating the diagnosis: "
  const TriageErrorSuffix := ". Please check the console for details."
  const MedicationErrorPrefix := "Could not analyze the medication photo: "
  const MedicationErrorSuffix := ". Please try again with a clearer image."
  const LiveCallErrorPrefix := "An error occurred while generating the diagnosis from the live call: "
  const LiveCallErrorSuffix := "."

  const CvConfidenceKey := "cvConfidence"
  const DefaultCvConfidence := "85"

  /** `a` and `b` agree on property `k`: both lack it, or both hold the same value. */
  predicate SameAt(a: PatientRecord, b: PatientRecord, k: string)
  {
    (k in a <==> k in b) && (k in a ==> a[k] == b[k])
  }

  /** The empty triage form: every text field blank except `cvConfidence`, which is '85'. */
  function DefaultForm(): (f: PatientRecord)
    ensures f.Keys == set k | k in TextFields
  {
    map k | k in TextFields :: if k == CvConfidenceKey then Text(DefaultCvConfidence) else Text("")
  }

  /** The form `handleFillSampleData` installs. */
  const SampleForm: PatientRecord := map[
    "age" := Text("28"),
    "gender" := Text("Male"),
    "symptoms" := Text("high fever, severe headache, body pain, rash on arms, weakness"),
    "additionalSymptoms" := Text("The rash consists of small red dots and is not itchy. Body pain is most severe in the lower back and legs."),
    "pastMedicalHistory" := Text("Had a similar high-grade fever about 2 years ago, diagnosed as viral fever. No known comorbidities."),
    "feverDays" := Text("4"),
    "temperature" := Text("39.2"),
    "rdtResult" := Text("NS1 positive, Malaria negative, Platelets 95000"),
    "location" := Text("Pune, Maharashtra"),
    "season" := Text("Monsoon"),
    "travel" := Text("no"),
    "cvConfidence" := Text("90")]

  /** `formData.cvConfidence || '85'`. */
  function CvConfidenceOf(form: PatientRecord): (v: Value)
    ensures Truthy(v)
    ensures CvConfidenceKey in form && Truthy(form[CvConfidenceKey]) ==> v == form[CvConfidenceKey]
    ensures !(CvConfidenceKey in form && Truthy(form[CvConfidenceKey])) ==> v == Text(DefaultCvConfidence)
  {
    if CvConfidenceKey in form && Truthy(form[CvConfidenceKey]) then form[CvConfidenceKey]
    else Text(DefaultCvConfidence)
  }

  /** The attachment `{ base64, mimeType: file.type }` built from a file. */
  function MediaOf(f: File): Media
  {
    Media(f.base64, f.mimeType)
  }

  /** A file is present for modality `m` (the loop skips keys whose value is `null`). */
  predicate Present(files: map<Modality, Option<File>>, m: Modality)
  {
    m in files && files[m].Some?
  }

  /** `d` with the present files among `ms` attached under their modality keys, in order. */
  function AttachFiles(d: PatientRecord, files: map<Modality, Option<File>>, ms: seq<Modality>): PatientRecord
  {
    if ms == [] then d
    else
      var prior := AttachFiles(d, files, ms[..|ms| - 1]);
      var m := ms[|ms| - 1];
      if Present(files, m) then prior[ModalityKey(m) := Attached(MediaOf(files[m].value))] else prior
  }

  /** The patient data `handleTriageSubmit` sends: the form with `cvConfidence` defaulted,
      the triage photo under `photo` when there is one, and every present multimodal file
      under its modality key. */
  function TriagePayload(form: PatientRecord, triage: Option<File>, files: map<Modality, Option<File>>): PatientRecord
  {
    var withCv := form[CvConfidenceKey := CvConfidenceOf(form)];
    var withPhoto := if triage.Some? then withCv[PhotoKey := Attached(MediaOf(triage.value))] else withCv;
    AttachFiles(withPhoto, files, AllModalities)
  }

  /** A diagnosis stamped with the time it was saved (`{ ...d, timestamp }`). */
  function Stamped(d: Diagnosis, now: int): (s: Diagnosis)
    ensures s.report == d.report && s.timestamp == Some(now)
  {
    d.(timestamp := Some(now))
  }

  /** The diagnosis the report page shows: `selectedPastDiagnosis || diagnosis`. */
  function ShownDiagnosis(v: View): (d: Option<Diagnosis>)
    ensures v.selectedPast.Some? ==> d == v.selectedPast
    ensures v.selectedPast.None? ==> d == v.diagnosis
  {
    if v.selectedPast.Some? then v.selectedPast else v.diagnosis
  }

  /** An error text framing a detail message between a fixed prefix and suffix. */
  function Framed(prefix: string, detail: string, suffix: string): (m: string)
    ensures |m| == |prefix| + |detail| + |suffix|
    ensures m[..|prefix|] == prefix && m[|m| - |suffix|..] == suffix
  {
    prefix + detail + suffix
  }

  /** The detail message inside a framed error text. */
  function Unframed(prefix: string, m: string, suffix: string): string
    requires |prefix| + |suffix| <= |m|
  {
    m[|prefix|..|m| - |suffix|]
  }

  /** The detail of an error can be read back from the text the error page shows. */
  lemma FramedDetailRecoverable(prefix: string, detail: string, suffix: string)
    ensures |prefix| + |suffix| <= |Framed(prefix, detail, suffix)|
    ensures Unframed(prefix, Framed(prefix, detail, suffix), suffix) == detail
  {
    var m := Framed(prefix, detail, suffix);
    assert m == prefix + detail + suffix;
    assert m[|prefix|..|m| - |suffix|] == detail by {
      forall i | 0 <= i < |detail|
        ensures m[|prefix|..|m| - |suffix|][i] == detail[i]
      {
        assert m[|prefix| + i] == (prefix + detail)[|prefix| + i];
      }
    }
  }

  /** A preview URL that `URL.revokeObjectURL` is called on: set and non-empty. */
  predicate Revocable(previews: map<Modality, Option<string>>, m: Modality, url: string)
  {
    m in previews && previews[m] == Some(url) && url != ""
  }

  /** The URLs revoked when the previews of `ms` are cleaned up. */
  function PreviewUrls(previews: map<Modality, Option<string>>, ms: seq<Modality>): set<string>
  {
    if ms == [] then {}
    else
      var m := ms[|ms| - 1];
      PreviewUrls(previews, ms[..|ms| - 1])
        + (if m in previews && previews[m].Some? && previews[m].value != "" then {previews[m].value} else {})
  }

  /** Cleaning up the previews of `ms` revokes exactly the set URLs of those modalities. */
  lemma {:induction false} PreviewUrlsExact(previews: map<Modality, Option<string>>, ms: seq<Modality>, url: string)
    ensures url in PreviewUrls(previews, ms) <==> exists m :: m in ms && Revocable(previews, m, url)
  {
    if ms != [] {
      var init := ms[..|ms| - 1];
      var last := ms[|ms| - 1];
      PreviewUrlsExact(previews, init, url);
      assert ms == init + [last];
      if url in PreviewUrls(previews, ms) && url !in PreviewUrls(previews, init) {
        assert Revocable(previews, last, url);
      }
      if m :| m in ms && Revocable(previews, m, url) {
        if m != last {
          assert m in init;
        }
      }
    }
  }

  /** `resetApp` revokes every set preview URL, of whichever modality. */
  lemma ResetRevokesEveryPreview(previews: map<Modality, Option<string>>, url: string)
    ensures url in PreviewUrls(previews, AllModalities) <==> exists m :: Revocable(previews, m, url)
  {
    PreviewUrlsExact(previews, AllModalities, url);
    if m :| Revocable(previews, m, url) {
      AllModalitiesListsEach(m);
    }
  }

  /** What `AttachFiles` does to each property: present files of `ms` are attached under
      their keys, and every other property, the photo included, is left alone. */
  lemma {:induction false} AttachFilesEffect(d: PatientRecord, files: map<Modality, Option<File>>, ms: seq<Modality>)
    ensures forall m :: m in ms && Present(files, m) ==>
              var r := AttachFiles(d, files, ms);
              ModalityKey(m) in r && r[ModalityKey(m)] == Attached(MediaOf(files[m].value))
    ensures forall m :: !(m in ms && Present(files, m)) ==> SameAt(AttachFiles(d, files, ms), d, ModalityKey(m))
    ensures forall k :: k !in AttachmentKeys ==> SameAt(AttachFiles(d, files, ms), d, k)
    ensures SameAt(AttachFiles(d, files, ms), d, PhotoKey)
  {
    if ms != [] {
      var init := ms[..|ms| - 1];
      var last := ms[|ms| - 1];
      AttachFilesEffect(d, files, init);
      assert ms == init + [last];
      var prior := AttachFiles(d, files, init);
      var r := AttachFiles(d, files, ms);
      ModalityKeyIsAttachmentKey(last);
      forall m | !(m in ms && Present(files, m))
        ensures SameAt(r, d, ModalityKey(m))
      {
        ModalityKeyInjective(m, last);
        assert !(m in init && Present(files, m));
      }
      forall m | m in ms && Present(files, m)
        ensures ModalityKey(m) in r && r[ModalityKey(m)] == Attached(MediaOf(files[m].value))
      {
        ModalityKeyInjective(m, last);
        if m != last {
          assert m in init;
        }
      }
    }
  }

  /** What `handleTriageSubmit` sends, property by property: `cvConfidence` is never empty
      and keeps a non-empty form value; `photo` is the triage photo when one was chosen
      and the form's otherwise; each modality key holds its file when one is present and
      the form's value otherwise; every other property is the form's. */
  lemma TriagePayloadProperties(form: PatientRecord, triage: Option<File>, files: map<Modality, Option<File>>)
    ensures var r := TriagePayload(form, triage, files);
      && CvConfidenceKey in r && Truthy(r[CvConfidenceKey])
      && (CvConfidenceKey in form && Truthy(form[CvConfidenceKey]) ==> r[CvConfidenceKey] == form[CvConfidenceKey])
    ensures triage.Some? ==> var r := TriagePayload(form, triage, files);
      PhotoKey in r && r[PhotoKey] == Attached(MediaOf(triage.value))
    ensures triage.None? ==> SameAt(TriagePayload(form, triage, files), form, PhotoKey)
    ensures forall m :: Present(files, m) ==> var r := TriagePayload(form, triage, files);
      ModalityKey(m) in r && r[ModalityKey(m)] == Attached(MediaOf(files[m].value))
    ensures forall m :: !Present(files, m) ==> SameAt(TriagePayload(form, triage, files), form, ModalityKey(m))
    ensures forall k :: k !in AttachmentKeys && k != CvConfidenceKey ==> SameAt(TriagePayload(form, triage, files), form, k)
  {
    var withCv := form[CvConfidenceKey := CvConfidenceOf(form)];
    var withPhoto := if triage.Some? then withCv[PhotoKey := Attached(MediaOf(triage.value))] else withCv;
    AttachFilesEffect(withPhoto, files, AllModalities);
    assert CvConfidenceKey !in AttachmentKeys;
    forall m | true
      ensures m in AllModalities && ModalityKey(m) != CvConfidenceKey && ModalityKey(m) != PhotoKey
    {
      AllModalitiesListsEach(m);
      ModalityKeyIsAttachmentKey(m);
    }
  }

  /** The `for…in` loop of `handleTriageSubmit` over the chosen files, after the form has
      been copied with its `cvConfidence` defaulted and the triage photo attached. */
  method AssembleTriagePayload(form: PatientRecord, triage: Option<File>, files: map<Modality, Option<File>>)
    returns (payload: PatientRecord)
    ensures payload == TriagePayload(form, triage, files)
  {
    payload := form[CvConfidenceKey := CvConfidenceOf(form)];
    if triage.Some? {
      payload := payload[PhotoKey := Attached(MediaOf(triage.value))];
    }
    ghost var start := payload;
    for i := 0 to |AllModalities|
      invariant payload == AttachFiles(start, files, AllModalities[..i])
    {
      var m := AllModalities[i];
      assert AllModalities[..i + 1][..i] == AllModalities[..i];
      if m in files && files[m].Some? {
        payload := payload[ModalityKey(m) := Attached(MediaOf(files[m].value))];
      }
    }
    assert AllModalities[..|AllModalities|] == AllModalities;
  }

  /** The application component's state. */
  class App {
    var view: View
    var formData: PatientRecord
    var photos: Photos
    var multimodal: Multimodal
    var pastDiagnoses: seq<Diagnosis>

    /** The app as first rendered (before the stored history is loaded). */
    constructor ()
      ensures view == View(Home, InitialLoadingMessage, None, None, None, None)
      ensures formData == DefaultForm()
      ensures photos == Photos(None, None, None, None)
      ensures multimodal == Multimodal(map[], map[], {})
      ensures pastDiagnoses == []
    {
      view := View(Home, InitialLoadingMessage, None, None, None, None);
      formData := DefaultForm();
      photos := Photos(None, None, None, None);
      multimodal := Multimodal(map[], map[], {});
      pastDiagnoses := [];
    }

    /** `handleMultimodalChange(modality, file)`: records the choice (also a `null` one),
        revokes the modality's previous preview URL when it was set, and installs `url`
        (the new object URL) as the preview when a file was given. */
    method HandleMultimodalChange(m: Modality, file: Option<File>, url: string)
      modifies this
      ensures multimodal.files == old(multimodal.files)[m := file]
      ensures multimodal.previews == old(multimodal.previews)[m := if file.Some? then Some(url) else None]
      ensures multimodal.revoked == old(multimodal.revoked) + PreviewUrls(old(multimodal.previews), [m])
      ensures view == old(view) && formData == old(formData) && photos == old(photos)
      ensures pastDiagnoses == old(pastDiagnoses)
    {
      var revoked := multimodal.revoked;
      if m in multimodal.previews && multimodal.previews[m].Some? && multimodal.previews[m].value != "" {
        revoked := revoked + {multimodal.previews[m].value};
      }
      assert [m][..0] == [];
      var preview := if file.Some? then Some(url) else None;
      multimodal := Multimodal(multimodal.files[m := file], multimodal.previews[m := preview], revoked);
    }

    /** `handleFormChange`: sets the named form field and nothing else. */
    method HandleFormChange(name: string, value: string)
      modifies this
      ensures formData == old(formData)[name := Text(value)]
      ensures forall k :: k != name ==> SameAt(formData, old(formData), k)
      ensures view == old(view) && photos == old(photos) && multimodal == old(multimodal)
      ensures pastDiagnoses == old(pastDiagnoses)
    {
      formData := formData[name := Text(value)];
    }

    /** `handleTriagePhotoChange`: takes the first chosen file, if any, with `url` as its
        preview. */
    method HandleTriagePhotoChange(chosen: seq<File>, url: string)
      modifies this
      ensures |chosen| > 0 ==> photos == old(photos).(triage := Some(chosen[0]), triagePreview := Some(url))
      ensures |chosen| == 0 ==> photos == old(photos)
      ensures view == old(view) && formData == old(formData) && multimodal == old(multimodal)
      ensures pastDiagnoses == old(pastDiagnoses)
    {
      if |chosen| > 0 {
        photos := photos.(triage := Some(chosen[0]), triagePreview := Some(url));
      }
    }

    /** `handleMedicationPhotoChange`: as for the triage photo. */
    method HandleMedicationPhotoChange(chosen: seq<File>, url: string)
      modifies this
      ensures |chosen| > 0 ==> photos == old(photos).(medication := Some(chosen[0]), medicationPreview := Some(url))
      ensures |chosen| == 0 ==> photos == old(photos)
      ensures view == old(view) && formData == old(formData) && multimodal == old(multimodal)
      ensures pastDiagnoses == old(pastDiagnoses)
    {
      if |chosen| > 0 {
        photos := photos.(medication := Some(chosen[0]), medicationPreview := Some(url));
      }
    }

    /** `saveDiagnosis`: the stamped diagnosis becomes the current one and goes to the front
        of the history, whose earlier entries keep their order. */
    method SaveDiagnosis(d: Diagnosis, now: int)
      modifies this
      ensures view == old(view).(diagnosis := Some(Stamped(d, now)))
      ensures pastDiagnoses == [Stamped(d, now)] + old(pastDiagnoses)
      ensures pastDiagnoses[1..] == old(pastDiagnoses)
      ensures formData == old(formData) && photos == old(photos) && multimodal == old(multimodal)
    {
      var stamped := Stamped(d, now);
      view := view.(diagnosis := Some(stamped));
      pastDiagnoses := [stamped] + pastDiagnoses;
    }

    /** `handleTriageSubmit` up to the service call: shows the loading page, clears the
        error and both diagnoses, and returns the patient data the call is given. */
    method BeginTriageSubmit() returns (request: PatientRecord)
      modifies this
      ensures view == old(view).(page := Loading, loadingMessage := TriageLoadingMessage,
                                 error := None, diagnosis := None, selectedPast := None)
      ensures request == TriagePayload(formData, photos.triage, multimodal.files)
      ensures formData == old(formData) && photos == old(photos) && multimodal == old(multimodal)
      ensures pastDiagnoses == old(pastDiagnoses)
    {
      view := view.(page := Loading, loadingMessage := TriageLoadingMessage,
                    error := None, diagnosis := None, selectedPast := None);
      request := AssembleTriagePayload(formData, photos.triage, multimodal.files);
    }

    /** `handleTriageSubmit` after the call: a diagnosis is saved and shown; a failure shows
        its message on the error page. */
    method FinishTriageSubmit(outcome: Result<Diagnosis, string>, now: int)
      modifies this
      ensures outcome.Ok? ==> && view == old(view).(page := DiagnosisReport, diagnosis := Some(Stamped(outcome.value, now)))
                              && pastDiagnoses == [Stamped(outcome.value, now)] + old(pastDiagnoses)
      ensures outcome.Ok? && old(view.selectedPast).None? ==> ShownDiagnosis(view) == Some(Stamped(outcome.value, now))
      ensures outcome.Err? ==> && view == old(view).(page := ErrorPage,
                                                     error := Some(Framed(TriageErrorPrefix, outcome.error, TriageErrorSuffix)))
                               && pastDiagnoses == old(pastDiagnoses)
      ensures formData == old(formData) && photos == old(photos) && multimodal == old(multimodal)
    {
      match outcome
      case Ok(d) =>
        SaveDiagnosis(d, now);
        view := view.(page := DiagnosisReport);
      case Err(message) =>
        view := view.(page := ErrorPage, error := Some(Framed(TriageErrorPrefix, message, TriageErrorSuffix)));
    }

    /** `handleMedicationCheck` up to the service call. Without a medication photo it goes
        straight to the error page and sends nothing; otherwise it shows the loading page
        and returns the photo the call is given. */
    method BeginMedicationCheck() returns (request: Option<Media>)
      modifies this
      ensures old(photos.medication).None? ==> && request.None?
                                               && view == old(view).(page := ErrorPage, error := Some(MissingMedicationPhoto))
      ensures old(photos.medication).Some? ==> && request == Some(MediaOf(old(photos.medication).value))
                                               && view == old(view).(page := Loading, loadingMessage := MedicationLoadingMessage, error := None)
      ensures view.page != Loading <==> request.None?
      ensures formData == old(formData) && photos == old(photos) && multimodal == old(multimodal)
      ensures pastDiagnoses == old(pastDiagnoses)
    {
      if photos.medication.None? {
        view := view.(page := ErrorPage, error := Some(MissingMedicationPhoto));
        return None;
      }
      view := view.(page := Loading, loadingMessage := MedicationLoadingMessage, error := None);
      request := Some(MediaOf(photos.medication.value));
    }

    /** `handleMedicationCheck` after the call. */
    method FinishMedicationCheck(outcome: Result<MedicationInfo, string>)
      modifies this
      ensures outcome.Ok? ==> view == old(view).(page := MedicationReport, medicationInfo := Some(outcome.value))
      ensures outcome.Err? ==> view == old(view).(page := ErrorPage,
                                                  error := Some(Framed(MedicationErrorPrefix, outcome.error, MedicationErrorSuffix)))
      ensures formData == old(formData) && photos == old(photos) && multimodal == old(multimodal)
      ensures pastDiagnoses == old(pastDiagnoses)
    {
      match outcome
      case Ok(info) =>
        view := view.(page := MedicationReport, medicationInfo := Some(info));
      case Err(message) =>
        view := view.(page := ErrorPage, error := Some(Framed(MedicationErrorPrefix, message, MedicationErrorSuffix)));
    }

    /** `handleDiagnosisFromLiveCall` up to the service call: shows the loading page, merges
        the live call's patient data over the form (the call's properties win) and sends
        that patient data unchanged. */
    method BeginDiagnosisFromLiveCall(patientData: PatientRecord) returns (request: PatientRecord)
      modifies this
      ensures view == old(view).(page := Loading, loadingMessage := LiveCallLoadingMessage,
                                 error := None, diagnosis := None, selectedPast := None)
      ensures formData == old(formData) + patientData
      ensures forall k :: k in patientData ==> k in formData && formData[k] == patientData[k]
      ensures forall k :: k !in patientData ==> SameAt(formData, old(formData), k)
      ensures request == patientData
      ensures photos == old(photos) && multimodal == old(multimodal)
      ensures pastDiagnoses == old(pastDiagnoses)
    {
      view := view.(page := Loading, loadingMessage := LiveCallLoadingMessage,
                    error := None, diagnosis := None, selectedPast := None);
      formData := formData + patientData;
      request := patientData;
    }

    /** `handleDiagnosisFromLiveCall` after the call. */
    method FinishDiagnosisFromLiveCall(outcome: Result<Diagnosis, string>, now: int)
      modifies this
      ensures outcome.Ok? ==> && view == old(view).(page := DiagnosisReport, diagnosis := Some(Stamped(outcome.value, now)))
                              && pastDiagnoses == [Stamped(outcome.value, now)] + old(pastDiagnoses)
      ensures outcome.Err? ==> && view == old(view).(page := ErrorPage,
                                                     error := Some(Framed(LiveCallErrorPrefix, outcome.error, LiveCallErrorSuffix)))
                               && pastDiagnoses == old(pastDiagnoses)
      ensures formData == old(formData) && photos == old(photos) && multimodal == old(multimodal)
    {
      match outcome
      case Ok(d) =>
        SaveDiagnosis(d, now);
        view := view.(page := DiagnosisReport);
      case Err(message) =>
        view := view.(page := ErrorPage, error := Some(Framed(LiveCallErrorPrefix, message, LiveCallErrorSuffix)));
    }

    /** `handleViewSpecificPastDiagnosis`: shows the chosen entry of the history. */
    method ViewPastDiagnosis(d: Diagnosis)
      modifies this
      ensures view == old(view).(page := DiagnosisReport, selectedPast := Some(d), diagnosis := Some(d))
      ensures ShownDiagnosis(view) == Some(d)
      ensures formData == old(formData) && photos == old(photos) && multimodal == old(multimodal)
      ensures pastDiagnoses == old(pastDiagnoses)
    {
      view := view.(page := DiagnosisReport, selectedPast := Some(d), diagnosis := Some(d));
    }

    /** The plain navigation handlers: starting a live consultation, opening the history,
        the surveillance or the orchestrator page, and going back home. */
    method Navigate(p: Page)
      requires p in {Home, LiveConsult, PastDiagnoses, Surveillance, Orchestrator}
      modifies this
      ensures view == old(view).(page := p)
      ensures formData == old(formData) && photos == old(photos) && multimodal == old(multimodal)
      ensures pastDiagnoses == old(pastDiagnoses)
    {
      view := view.(page := p);
    }

    /** `handleFillSampleData`: replaces the whole form with the sample patient. */
    method FillSampleData()
      modifies this
      ensures formData == SampleForm
      ensures view == old(view) && photos == old(photos) && multimodal == old(multimodal)
      ensures pastDiagnoses == old(pastDiagnoses)
    {
      formData := SampleForm;
    }

    /** `resetApp`: back to the home page with nothing shown, the default form, no photos
        and no multimodal files, after revoking every set multimodal preview URL. The
        history and the loading message are kept. */
    method ResetApp()
      modifies this
      ensures view == View(Home, old(view.loadingMessage), None, None, None, None)
      ensures formData == DefaultForm()
      ensures photos == Photos(None, None, None, None)
      ensures multimodal == Multimodal(map[], map[], old(multimodal.revoked) + PreviewUrls(old(multimodal.previews), AllModalities))
      ensures pastDiagnoses == old(pastDiagnoses)
    {
      var previews := multimodal.previews;
      var revoked := multimodal.revoked;
      for i := 0 to |AllModalities|
        invariant revoked == multimodal.revoked + PreviewUrls(previews, AllModalities[..i])
      {
        var m := AllModalities[i];
        assert AllModalities[..i + 1][..i] == AllModalities[..i];
        if m in previews && previews[m].Some? && previews[m].value != "" {
          revoked := revoked + {previews[m].value};
        }
      }
      assert AllModalities[..|AllModalities|] == AllModalities;
      view := View(Home, view.loadingMessage, None, None, None, None);
      formData := DefaultForm();
      photos := Photos(None, None, None, None);
      multimodal := Multimodal(map[], map[], revoked);
    }
  }

  /** The default form lists every text field, blank but for `cvConfidence`, so a triage
      submitted from it sends confidence '85'. */
  lemma DefaultFormFields(triage: Option<File>, files: map<Modality, Option<File>>)
    ensures CvConfidenceKey in DefaultForm() && DefaultForm()[CvConfidenceKey] == Text(DefaultCvConfidence)
    ensures forall k :: k in DefaultForm() && k != CvConfidenceKey ==> DefaultForm()[k] == Text("")
    ensures var r := TriagePayload(DefaultForm(), triage, files);
      CvConfidenceKey in r && r[CvConfidenceKey] == Text(DefaultCvConfidence)
  {
    assert CvConfidenceKey in TextFields;
    TriagePayloadProperties(DefaultForm(), triage, files);
  }
}
