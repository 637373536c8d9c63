/** The deterministic parts of the diagnosis service (services/geminiService.ts): the request
    parts of a diagnosis call (a prompt, then a START / data / END triple per attachment in
    a fixed order), the extraction of synthesized audio from a text-to-speech response, and
    the function declarations offered to the live model. The remote calls themselves are not
    modelled: their responses are inputs. */
module Gemini {
  import opened Types
  import opened Strings

  /** A request part: text, or inline binary data whose fields may be `undefined` (`None`). */
  datatype Part = TextPart(text: string) | InlineData(data: Option<string>, mimeType: Option<string>)

  // ---------------------------------------------------------------------------------------
  // The diagnosis prompt
  // ---------------------------------------------------------------------------------------

  /** `${patientData[key]}`: a missing property renders as `undefined`, an attachment object
      as `[object Object]`. */
  function Render(p: PatientRecord, key: string): string
  {
    if key !in p then "undefined"
    else match p[key]
      case Text(t) => t
      case Attached(_) => "[object Object]"
  }

  /** `${patientData[key] || 'Not provided'}`: a missing or empty property is falsy. */
  function RenderOrNotProvided(p: PatientRecord, key: string): (s: string)
    ensures (key !in p || p[key] == Text("")) ==> s == "Not provided"
    ensures key in p && p[key].Text? && p[key].text != "" ==> s == p[key].text
  {
    if key !in p || p[key] == Text("") then "Not provided" else Render(p, key)
  }

  /** The value interpolated for the `i`-th text field; the template lists the text fields
      in their declaration order, and only `additionalSymptoms` and `pastMedicalHistory`
      fall back to 'Not provided'. */
  function PromptValue(p: PatientRecord, i: nat): string
    requires i < |TextFields|
  {
    if i == 3 || i == 4 then RenderOrNotProvided(p, TextFields[i]) else Render(p, TextFields[i])
  }

  /** The twelve interpolated values of the prompt, in template order. */
  function PromptValues(p: PatientRecord): (v: seq<string>)
    ensures |v| == |TextFields| == 12
  {
    seq(|TextFields|, i requires 0 <= i < |TextFields| => PromptValue(p, i))
  }

  /** The fixed text of the `getFeverDiagnosis` prompt template: the text before, between
      and after its twelve interpolated values. */
  const PromptFragments: seq<string> := [
    "\nPatient details (real-time from phone):\n- Age: ",
    " years\n- Gender: ",
    "\n- Symptoms: ",
    "\n- Additional Symptoms: ",
    "\n- Past Medical History: ",
    "\n- Fever days: ",
    "\n- Temperature: ",
    "°C (Note: This may be a FeverTouch™ estimate)\n- RDT result (exact text on cassette): ",
    "\n- Location: ",
    " (current district)\n- Season: ",
    "\n- Recent travel: ",
    "\n- Photo analysis confidence: ",
    "%\n\nAnalyze the provided clinical data along with all the following multimodal inputs (if provided) "
      + "to generate your fused diagnosis.\n"
  ]

  /** A template filled in: each fragment followed by the value interpolated after it. */
  function Interleave(fragments: seq<string>, values: seq<string>): string
    requires |fragments| == |values| + 1
    decreases |values|
  {
    if values == [] then fragments[0]
    else fragments[0] + values[0] + Interleave(fragments[1..], values[1..])
  }

  /** The prompt template of `getFeverDiagnosis` around its interpolated values. */
  function PromptTemplate(v: seq<string>): string
    requires |v| == 12
  {
    Interleave(PromptFragments, v)
  }

  /** The user prompt of `getFeverDiagnosis`. */
  function UserPrompt(p: PatientRecord): string
  {
    PromptTemplate(PromptValues(p))
  }

  /** The prompt reads the text fields only: two records that agree on every text field
      produce the same prompt, whatever attachments they carry. */
  lemma UserPromptReadsTextFieldsOnly(p: PatientRecord, q: PatientRecord)
    requires forall i :: 0 <= i < |TextFields| ==> AgreeOn(p, q, TextFields[i])
    ensures UserPrompt(p) == UserPrompt(q)
  {
    forall i | 0 <= i < |TextFields|
      ensures PromptValues(p)[i] == PromptValues(q)[i]
    {
      assert AgreeOn(p, q, TextFields[i]);
    }
    assert PromptValues(p) == PromptValues(q);
  }

  /** The two records hold the same value, or both nothing, under `key`. */
  predicate AgreeOn(p: PatientRecord, q: PatientRecord, key: string)
  {
    (key in p <==> key in q) && (key in p ==> p[key] == q[key])
  }

  // ---------------------------------------------------------------------------------------
  // Part assembly
  // ---------------------------------------------------------------------------------------

  /** `patientData[key]` as `if (data)` in `addPart` sees it: present when the property is
      truthy. A non-empty text stored under an attachment key passes the test too. */
  function AttachmentOf(p: PatientRecord, key: string): (r: Option<Value>)
    ensures r.Some? <==> key in p && Truthy(p[key])
    ensures r.Some? ==> p[key] == r.value
  {
    if key in p && Truthy(p[key]) then Some(p[key]) else None
  }

  /** `{ inlineData: { data: data.base64, mimeType: data.mimeType } }`: a string has neither
      property, so a text value yields `undefined` for both. */
  function InlinePart(v: Value): (r: Part)
    ensures r.InlineData?
    ensures v.Attached? ==> r.data == Some(v.media.base64) && r.mimeType == Some(v.media.mimeType)
    ensures v.Text? ==> r.data.None? && r.mimeType.None?
  {
    match v
    case Attached(m) => InlineData(Some(m.base64), Some(m.mimeType))
    case Text(_) => InlineData(None, None)
  }

  /** The three parts `addPart` pushes for a present value. */
  function Section(v: Value, description: string): seq<Part>
  {
    [TextPart("[START OF " + Upper(description) + "]"),
     InlinePart(v),
     TextPart("[END OF " + Upper(description) + "]")]
  }

  /** One attachment slot: the property read and the description that labels it. */
  datatype Slot = Slot(key: string, description: string)

  /** The order of the seven `addPart` calls. */
  const AttachmentOrder: seq<Slot> := [
    Slot("rashPhoto", "Rash Photo"),
    Slot("tonguePhoto", "Tongue Photo"),
    Slot("eyePhoto", "Eye Photo"),
    Slot("palmPhoto", "Palm Photo"),
    Slot("nailPhoto", "Nail Photo"),
    Slot("coughAudio", "Cough Audio"),
    Slot("photo", "RDT/Other Photo")
  ]

  /** What the slots contribute after the prompt, in slot order: a section per truthy value. */
  function Sections(p: PatientRecord, slots: seq<Slot>): seq<Part>
  {
    if slots == [] then []
    else
      var last := slots[|slots| - 1];
      Sections(p, slots[..|slots| - 1])
      + match AttachmentOf(p, last.key)
        case None => []
        case Some(m) => Section(m, last.description)
  }

  /** How many of the slots hold a truthy value. */
  function CountPresent(p: PatientRecord, slots: seq<Slot>): (n: nat)
    ensures n <= |slots|
  {
    if slots == [] then 0
    else CountPresent(p, slots[..|slots| - 1]) + (if AttachmentOf(p, slots[|slots| - 1].key).Some? then 1 else 0)
  }

  /** `addPart(data, description)`: pushes a section when `data` is truthy. */
  method AddPart(parts: seq<Part>, data: Option<Value>, description: string) returns (r: seq<Part>)
    ensures data.None? ==> r == parts
    ensures data.Some? ==> r == parts + Section(data.value, description)
  {
    r := parts;
    if data.Some? {
      r := r + Section(data.value, description);
    }
  }

  /** The run of `addPart` calls over `slots`, appending each present attachment's section
      to `parts`. */
  method AddParts(parts: seq<Part>, p: PatientRecord, slots: seq<Slot>) returns (r: seq<Part>)
    ensures r == parts + Sections(p, slots)
  {
    r := parts;
    for i := 0 to |slots|
      invariant r == parts + Sections(p, slots[..i])
    {
      assert slots[..i + 1][..i] == slots[..i];
      r := AddPart(r, AttachmentOf(p, slots[i].key), slots[i].description);
    }
    assert slots[..|slots|] == slots;
  }

  /** The parts of a `getFeverDiagnosis` request: the prompt, then every present attachment
      in slot order. */
  method AssembleDiagnosisParts(p: PatientRecord) returns (parts: seq<Part>)
    ensures parts == [TextPart(UserPrompt(p))] + Sections(p, AttachmentOrder)
    ensures parts[0] == TextPart(UserPrompt(p))
    ensures |parts| == 1 + 3 * CountPresent(p, AttachmentOrder)
  {
    var prompt := TextPart(UserPrompt(p));
    parts := AddParts([prompt], p, AttachmentOrder);
    SectionsLength(p, AttachmentOrder);
  }

  /** Every present attachment adds three parts and every absent one adds none. */
  lemma {:induction false} SectionsLength(p: PatientRecord, slots: seq<Slot>)
    ensures |Sections(p, slots)| == 3 * CountPresent(p, slots)
  {
    if slots != [] {
      SectionsLength(p, slots[..|slots| - 1]);
    }
  }

  /** Sections of a prefix of the slots are a prefix of the sections of all of them. */
  lemma {:induction false} SectionsPrefix(p: PatientRecord, slots: seq<Slot>, n: nat)
    requires n <= |slots|
    ensures Sections(p, slots[..n]) <= Sections(p, slots)
    ensures CountPresent(p, slots[..n]) <= CountPresent(p, slots)
    decreases |slots|
  {
    if n < |slots| {
      var init := slots[..|slots| - 1];
      assert init[..n] == slots[..n];
      SectionsPrefix(p, init, n);
    } else {
      assert slots[..n] == slots;
    }
  }

  /** Slot `k`'s value, when truthy, sits as one START / data / END triple right after the
      triples of the present slots before it. For an attachment the data part carries its
      own base64 and mime type; for a non-empty text both are `undefined`. */
  lemma SectionOfSlot(p: PatientRecord, slots: seq<Slot>, k: nat)
    requires k < |slots|
    requires AttachmentOf(p, slots[k].key).Some?
    ensures var c := CountPresent(p, slots[..k]);
            var m := AttachmentOf(p, slots[k].key).value;
            && 3 * c + 3 <= |Sections(p, slots)|
            && Sections(p, slots)[3 * c .. 3 * c + 3] == Section(m, slots[k].description)
            && (m.Attached? ==> Sections(p, slots)[3 * c + 1] == InlineData(Some(m.media.base64), Some(m.media.mimeType)))
            && (m.Text? ==> Sections(p, slots)[3 * c + 1] == InlineData(None, None))
  {
    var c := CountPresent(p, slots[..k]);
    var m := AttachmentOf(p, slots[k].key).value;
    var upto := slots[..k + 1];
    assert upto[..k] == slots[..k];
    SectionsLength(p, slots[..k]);
    assert Sections(p, upto) == Sections(p, slots[..k]) + Section(m, slots[k].description);
    SectionsPrefix(p, slots, k + 1);
    var whole := Sections(p, slots);
    assert whole[..|Sections(p, upto)|] == Sections(p, upto);
    assert whole[3 * c .. 3 * c + 3] == Sections(p, upto)[3 * c .. 3 * c + 3];
  }

  /** An absent attachment contributes nothing: the slot's triple is missing and the count
      of parts is that of the slots before and after it alone. */
  lemma AbsentSlotAddsNothing(p: PatientRecord, slots: seq<Slot>, k: nat)
    requires k < |slots|
    requires AttachmentOf(p, slots[k].key).None?
    ensures Sections(p, slots[..k + 1]) == Sections(p, slots[..k])
    ensures CountPresent(p, slots[..k + 1]) == CountPresent(p, slots[..k])
  {
    assert slots[..k + 1][..k] == slots[..k];
  }

  /** A text stored under an attachment key (as a live handoff can produce when the agent
      passes an undeclared argument) is truthy, so it still gets a section, with
      `undefined` data and mime type. */
  lemma TextUnderAttachmentKeyAddsSection()
    ensures var p := map["rashPhoto" := Text("yes")];
            var s := Sections(p, AttachmentOrder);
            && 3 <= |s|
            && s[..3] == [TextPart("[START OF RASH PHOTO]"), InlineData(None, None), TextPart("[END OF RASH PHOTO]")]
  {
    var p := map["rashPhoto" := Text("yes")];
    SectionOfSlot(p, AttachmentOrder, 0);
    assert AttachmentOrder[..0] == [];
    assert Upper("Rash Photo") == "RASH PHOTO";
    assert CountPresent(p, AttachmentOrder[..0]) == 0;
    assert "[START OF " + "RASH PHOTO" + "]" == "[START OF RASH PHOTO]";
    assert "[END OF " + "RASH PHOTO" + "]" == "[END OF RASH PHOTO]";
    assert Section(Text("yes"), "Rash Photo")
        == [TextPart("[START OF RASH PHOTO]"), InlineData(None, None), TextPart("[END OF RASH PHOTO]")];
  }

  // ---------------------------------------------------------------------------------------
  // Text-to-speech audio extraction
  // ---------------------------------------------------------------------------------------

  /** The fields of a generate-content response that the optional chain
      `candidates?.[0]?.content?.parts?.[0]?.inlineData?.data` walks. */
  datatype InlineBlob = InlineBlob(data: Option<string>)
  datatype ResponsePart = ResponsePart(inlineData: Option<InlineBlob>)
  datatype Content = Content(parts: Option<seq<ResponsePart>>)
  datatype Candidate = Candidate(content: Option<Content>)
  datatype SpeechResponse = SpeechResponse(candidates: Option<seq<Candidate>>)

  /** The optional chain itself: `undefined` wherever a link is missing. */
  function FirstInlineData(r: SpeechResponse): Option<string>
  {
    match r.candidates
    case None => None
    case Some(cs) =>
      if |cs| == 0 then None
      else match cs[0].content
        case None => None
        case Some(c) =>
          match c.parts
          case None => None
          case Some(ps) =>
            if |ps| == 0 then None
            else match ps[0].inlineData
              case None => None
              case Some(blob) => blob.data
  }

  /** The response carries non-empty audio in its first candidate's first part. */
  predicate HasAudio(r: SpeechResponse)
  {
    && r.candidates.Some? && |r.candidates.value| > 0
    && r.candidates.value[0].content.Some?
    && r.candidates.value[0].content.value.parts.Some?
    && |r.candidates.value[0].content.value.parts.value| > 0
    && r.candidates.value[0].content.value.parts.value[0].inlineData.Some?
    && r.candidates.value[0].content.value.parts.value[0].inlineData.value.data.Some?
    && r.candidates.value[0].content.value.parts.value[0].inlineData.value.data.value != ""
  }

  const TtsMissingAudio := "No audio data received from TTS API."
  const RdtGuideMissingAudio := "No audio data received from TTS API for RDT guide."

  /** `if (!base64Audio) throw new Error(missing); return base64Audio;` */
  function ExtractAudio(r: SpeechResponse, missing: string): (res: Result<string, string>)
    ensures res.Ok? <==> HasAudio(r)
    ensures res.Ok? ==> res.value == r.candidates.value[0].content.value.parts.value[0].inlineData.value.data.value
    ensures res.Err? ==> res.error == missing
  {
    match FirstInlineData(r)
    case None => Err(missing)
    case Some(data) => if data == "" then Err(missing) else Ok(data)
  }

  /** The text a `textToSpeech` request asks to be spoken. */
  function SpeechRequestText(text: string): (s: string)
    ensures |text| <= |s| && s[|s| - |text|..] == text
  {
    "Please say this in a clear, reassuring tone: " + text
  }

  /** `textToSpeech` once the response is in. */
  function TextToSpeech(r: SpeechResponse): (res: Result<string, string>)
    ensures res.Ok? <==> HasAudio(r)
    ensures res.Err? ==> res.error == TtsMissingAudio
  {
    ExtractAudio(r, TtsMissingAudio)
  }

  /** `getRdtGuideAudio` once the response is in. */
  function RdtGuideAudio(r: SpeechResponse): (res: Result<string, string>)
    ensures res.Ok? <==> HasAudio(r)
    ensures res.Err? ==> res.error == RdtGuideMissingAudio
  {
    ExtractAudio(r, RdtGuideMissingAudio)
  }

  /** The two helpers succeed on the same responses, with the same audio. */
  lemma SpeechHelpersAgree(r: SpeechResponse)
    ensures TextToSpeech(r).Ok? <==> RdtGuideAudio(r).Ok?
    ensures TextToSpeech(r).Ok? ==> TextToSpeech(r).value == RdtGuideAudio(r).value
  {
  }

  // ---------------------------------------------------------------------------------------
  // Live tool declarations
  // ---------------------------------------------------------------------------------------

  /** A function declaration: its name, declared string properties and required ones. */
  datatype Declaration = Declaration(name: string, properties: seq<string>, required: seq<string>)

  /** The values the `modality` property's description lists. */
  const CaptureModalities: seq<string> :=
    ["rashPhoto", "tonguePhoto", "eyePhoto", "palmPhoto", "nailPhoto", "rdtPhoto"]

  const CaptureFrameFor := Declaration("captureFrameFor", ["modality"], ["modality"])

  const RecordCoughSample := Declaration("recordCoughSample", [], [])

  const TriggerDiagnosisDeclaration := Declaration(
    "triggerDiagnosis",
    ["age", "gender", "symptoms", "pastMedicalHistory", "feverDays", "temperature", "rdtResult",
     "location", "season", "travel"],
    ["age", "gender", "symptoms", "feverDays", "location", "season", "travel"])

  /** `liveDiagnosisTools.functionDeclarations`. */
  const LiveDiagnosisTools: seq<Declaration> := [CaptureFrameFor, RecordCoughSample, TriggerDiagnosisDeclaration]

  /** Every required property is a declared one. */
  predicate RequiredAreDeclared(d: Declaration)
  {
    forall r :: r in d.required ==> r in d.properties
  }

  /** The declarations are consistent: required properties are declared, and each declared
      `triggerDiagnosis` property is a text field of the patient record. */
  lemma DeclarationsConsistent()
    ensures forall d :: d in LiveDiagnosisTools ==> RequiredAreDeclared(d)
    ensures forall k :: k in TriggerDiagnosisDeclaration.properties ==> k in TextFields
    ensures |CaptureModalities| == 6 && "modality" in CaptureFrameFor.required
  {
  }

  /** `cvConfidence` and `additionalSymptoms` are text fields that `triggerDiagnosis` never
      declares, so a live-call handoff only carries them if the evidence map does. */
  lemma TriggerDiagnosisOmitsFields()
    ensures "cvConfidence" in TextFields && "cvConfidence" !in TriggerDiagnosisDeclaration.properties
    ensures "additionalSymptoms" in TextFields && "additionalSymptoms" !in TriggerDiagnosisDeclaration.properties
  {
  }
}
