/** Data model shared by the live consultation page, the diagnosis service and the app shell
    (types.ts). A `PatientData` object is a JavaScript object whose properties are either
    text fields or attachments, so it is modelled as a map from property name to value:
    the spreads `{...a, ...b}` of the source are then map unions in which `b` wins. */
module Types {

  datatype Option<T> = None | Some(value: T)

  datatype Result<T, E> = Ok(value: T) | Err(error: E)

  /** An attachment `{ base64, mimeType }`. */
  datatype Media = Media(base64: string, mimeType: string)

  /** One property of a patient-data object: a text field or an attachment. */
  datatype Value = Text(text: string) | Attached(media: Media)

  /** JavaScript truthiness of a patient-data property: an empty text is falsy, any other
      text and every attachment object are truthy. */
  predicate Truthy(v: Value)
  {
    match v
    case Text(s) => s != ""
    case Attached(_) => true
  }

  /** `PatientData` (and `Partial<PatientData>`) as the object it is at run time. */
  type PatientRecord = map<string, Value>

  /** `FeverFusionModality`: the six multimodal evidence kinds. */
  datatype Modality = RashPhoto | TonguePhoto | EyePhoto | PalmPhoto | NailPhoto | CoughAudio

  /** The property name under which a modality is stored in a patient-data object. */
  function ModalityKey(m: Modality): string
  {
    match m
    case RashPhoto => "rashPhoto"
    case TonguePhoto => "tonguePhoto"
    case EyePhoto => "eyePhoto"
    case PalmPhoto => "palmPhoto"
    case NailPhoto => "nailPhoto"
    case CoughAudio => "coughAudio"
  }

  /** The property holding the RDT (or other) photo. */
  const PhotoKey := "photo"

  /** The text properties of `PatientData`, in declaration order. */
  const TextFields: seq<string> :=
    ["age", "gender", "symptoms", "additionalSymptoms", "pastMedicalHistory", "feverDays",
     "temperature", "rdtResult", "location", "season", "travel", "cvConfidence"]

  /** Every attachment property of `PatientData`. */
  const AttachmentKeys: set<string> :=
    {"rashPhoto", "tonguePhoto", "eyePhoto", "palmPhoto", "nailPhoto", "coughAudio", "photo"}

  /** The modalities in the order the evidence sections list them. */
  const AllModalities: seq<Modality> :=
    [RashPhoto, TonguePhoto, EyePhoto, PalmPhoto, NailPhoto, CoughAudio]

  /** Every modality is listed once. */
  lemma AllModalitiesListsEach(m: Modality)
    ensures m in AllModalities
    ensures forall i, j :: 0 <= i < j < |AllModalities| ==> AllModalities[i] != AllModalities[j]
  {
  }

  /** A modality lives under an attachment property other than the photo property. */
  lemma ModalityKeyIsAttachmentKey(m: Modality)
    ensures ModalityKey(m) in AttachmentKeys
    ensures ModalityKey(m) != PhotoKey
  {
  }

  /** No modality's property is a text field. */
  lemma ModalityKeyIsNotTextField(m: Modality)
    ensures ModalityKey(m) !in TextFields
  {
  }

  /** Distinct modalities live under distinct properties. */
  lemma ModalityKeyInjective(m: Modality, m': Modality)
    ensures ModalityKey(m) == ModalityKey(m') ==> m == m'
  {
  }
}
