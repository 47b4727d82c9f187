/** The generator's reference catalog: procedure definitions with their
    log-normal phase parameters, the facilities with their service-line bias
    and daily volume, and the anesthesia weights per service line. All of it
    is constant configuration data. */
module Catalog {
  import Lexicographic

  /** `(mu, sigma)` of one log-normal duration phase, in log-minutes. */
  datatype Phase = Phase(mu: real, sigma: real)

  /** One catalog entry and the parameters of its four phases. */
  datatype ProcedureDef = ProcedureDef(
    procedureType: string,
    serviceLine: string,
    checkinToPreop: Phase,
    preopToOp: Phase,
    opToPostop: Phase,
    postopToDischarge: Phase)

  /** A facility as the generator reads it: its bias multiplies the weight of
      each listed service line, and it sees between `volumeMin` and
      `volumeMax` cases a day. */
  datatype Facility = Facility(
    id: string,
    bias: map<string, real>,
    volumeMin: int,
    volumeMax: int)

  /** The descriptive fields of a facility entry, which the generator never
      reads. */
  datatype FacilityLabel = FacilityLabel(id: string, name: string, timezone: string)

  /** One anesthesia type and its relative weight. */
  datatype AnesthesiaChoice = AnesthesiaChoice(kind: string, weight: real)

  datatype Option<T> = None | Some(value: T)

  /** Facility `k` (0-based) of the three, in declaration order; the last
      case answers every index beyond, which `FACILITIES` never reads. */
  function FacilityAt(k: int): Facility {
    match k
    case 0 => Facility("HOSP_A", map["GI" := 2.0, "Ophthalmology" := 1.5, "Dermatology" := 1.5], 60, 100)
    case 1 => Facility("HOSP_B", map["Orthopedics" := 2.0, "Pain" := 2.0, "General" := 1.5], 40, 80)
    case _ => Facility("HOSP_C", map["ENT" := 1.5, "Urology" := 1.5, "Gynecology" := 1.5, "Cardiology" := 1.5],
                       50, 90)
  }

  /** The name and time zone of facility `k`, in the same order. */
  function FacilityLabelAt(k: int): FacilityLabel {
    match k
    case 0 => FacilityLabel("HOSP_A", "Metro General Ambulatory Center", "America/New_York")
    case 1 => FacilityLabel("HOSP_B", "Lakeside Outpatient Surgery Center", "America/Chicago")
    case _ => FacilityLabel("HOSP_C", "Pacific Coast Surgical Institute", "America/Los_Angeles")
  }

  function FacilityTable(): seq<Facility> {
    seq(3, FacilityAt)
  }

  /** `FACILITIES`: the facilities in declaration order, which is the
      generation order. */
  const FACILITIES: seq<Facility> := FacilityTable()

  /** One key of `ANESTHESIA_TYPES` and the list it maps to. */
  datatype AnesthesiaEntry = AnesthesiaEntry(line: string, choices: seq<AnesthesiaChoice>)

  /** Entry `k` (0-based) of `ANESTHESIA_TYPES`, in declaration order; the
      last case answers every index beyond, which the table never reads. */
  function AnesthesiaEntryAt(k: int): AnesthesiaEntry {
    match k
    case 0 => AnesthesiaEntry("GI", [AnesthesiaChoice("MAC", 0.6), AnesthesiaChoice("Conscious sedation", 0.3), AnesthesiaChoice("General", 0.1)])
    case 1 => AnesthesiaEntry("Ophthalmology", [AnesthesiaChoice("Topical", 0.4), AnesthesiaChoice("Local", 0.3), AnesthesiaChoice("MAC", 0.3)])
    case 2 => AnesthesiaEntry("ENT", [AnesthesiaChoice("General", 0.7), AnesthesiaChoice("MAC", 0.2), AnesthesiaChoice("Local", 0.1)])
    case 3 => AnesthesiaEntry("Orthopedics", [AnesthesiaChoice("General", 0.4), AnesthesiaChoice("Regional", 0.4), AnesthesiaChoice("MAC", 0.2)])
    case 4 => AnesthesiaEntry("Pain", [AnesthesiaChoice("Local", 0.5), AnesthesiaChoice("MAC", 0.3), AnesthesiaChoice("Conscious sedation", 0.2)])
    case 5 => AnesthesiaEntry("Urology", [AnesthesiaChoice("General", 0.3), AnesthesiaChoice("MAC", 0.3), AnesthesiaChoice("Spinal", 0.2), AnesthesiaChoice("Local", 0.2)])
    case 6 => AnesthesiaEntry("Gynecology", [AnesthesiaChoice("General", 0.5), AnesthesiaChoice("MAC", 0.3), AnesthesiaChoice("Regional", 0.2)])
    case 7 => AnesthesiaEntry("Dermatology", [AnesthesiaChoice("Local", 0.7), AnesthesiaChoice("MAC", 0.2), AnesthesiaChoice("Conscious sedation", 0.1)])
    case 8 => AnesthesiaEntry("General", [AnesthesiaChoice("General", 0.6), AnesthesiaChoice("MAC", 0.2), AnesthesiaChoice("Regional", 0.2)])
    case _ => AnesthesiaEntry("Cardiology", [AnesthesiaChoice("MAC", 0.4), AnesthesiaChoice("Conscious sedation", 0.3), AnesthesiaChoice("General", 0.3)])
  }

  function AnesthesiaTable(): seq<AnesthesiaEntry> {
    seq(10, AnesthesiaEntryAt)
  }

  /** `ANESTHESIA_TYPES`: the dict's entries in declaration order. Its keys
      are distinct (`AnesthesiaKeysDistinct`), so it is a finite map. */
  const ANESTHESIA_TYPES: seq<AnesthesiaEntry> := AnesthesiaTable()

  /** Catalog entry `k` (0-based) of the 58 procedures. The catalog lists
      them service line by service line; `PROCEDURES` reads 0..57 only, and
      the last block also answers every index beyond. */
  function ProcedureAt(k: int): ProcedureDef {
    if k < 10 then GastroenterologyAt(k)
    else if k < 14 then OphthalmologyAt(k - 10)
    else if k < 20 then OtolaryngologyAt(k - 14)
    else if k < 30 then OrthopedicsAt(k - 20)
    else if k < 35 then PainManagementAt(k - 30)
    else if k < 40 then UrologyAt(k - 35)
    else if k < 46 then GynecologyAt(k - 40)
    else if k < 51 then DermatologyAt(k - 46)
    else if k < 56 then GeneralSurgeryAt(k - 51)
    else CardiologyAt(k - 56)
  }

  /** GI / Endoscopy: catalog entries 0..9. */
  function GastroenterologyAt(i: int): ProcedureDef {
    match i
    case 0 => ProcedureDef("Diagnostic colonoscopy", "GI", Phase(2.71, 0.35), Phase(2.89, 0.30), Phase(2.89, 0.25), Phase(3.22, 0.35))
    case 1 => ProcedureDef("Screening colonoscopy (average-risk)", "GI", Phase(2.71, 0.35), Phase(2.89, 0.30), Phase(2.77, 0.25), Phase(3.00, 0.30))
    case 2 => ProcedureDef("Screening colonoscopy (high-risk)", "GI", Phase(2.71, 0.35), Phase(2.89, 0.30), Phase(3.00, 0.30), Phase(3.22, 0.35))
    case 3 => ProcedureDef("Colonoscopy with biopsy", "GI", Phase(2.71, 0.35), Phase(2.89, 0.30), Phase(3.00, 0.30), Phase(3.22, 0.35))
    case 4 => ProcedureDef("Colonoscopy with polypectomy", "GI", Phase(2.71, 0.35), Phase(2.89, 0.30), Phase(3.18, 0.30), Phase(3.40, 0.35))
    case 5 => ProcedureDef("EGD with biopsy", "GI", Phase(2.71, 0.35), Phase(2.89, 0.30), Phase(2.71, 0.25), Phase(3.00, 0.30))
    case 6 => ProcedureDef("Upper endoscopy (diagnostic)", "GI", Phase(2.71, 0.30), Phase(2.89, 0.25), Phase(2.56, 0.25), Phase(2.89, 0.30))
    case 7 => ProcedureDef("Flexible sigmoidoscopy", "GI", Phase(2.71, 0.30), Phase(2.77, 0.25), Phase(2.56, 0.25), Phase(2.77, 0.30))
    case 8 => ProcedureDef("ERCP", "GI", Phase(2.89, 0.35), Phase(3.00, 0.30), Phase(3.69, 0.35), Phase(3.91, 0.40))
    case _ => ProcedureDef("Capsule endoscopy", "GI", Phase(2.56, 0.30), Phase(2.56, 0.25), Phase(2.30, 0.20), Phase(2.56, 0.25))
  }

  /** Ophthalmology: catalog entries 10..13. */
  function OphthalmologyAt(i: int): ProcedureDef {
    match i
    case 0 => ProcedureDef("Cataract extraction with IOL", "Ophthalmology", Phase(2.89, 0.30), Phase(2.89, 0.25), Phase(2.56, 0.25), Phase(3.22, 0.30))
    case 1 => ProcedureDef("YAG laser capsulotomy", "Ophthalmology", Phase(2.56, 0.25), Phase(2.56, 0.20), Phase(1.95, 0.20), Phase(2.56, 0.25))
    case 2 => ProcedureDef("Pterygium excision", "Ophthalmology", Phase(2.77, 0.30), Phase(2.89, 0.25), Phase(2.89, 0.30), Phase(3.00, 0.30))
    case _ => ProcedureDef("Blepharoplasty", "Ophthalmology", Phase(2.89, 0.30), Phase(3.00, 0.25), Phase(3.40, 0.35), Phase(3.40, 0.35))
  }

  /** ENT: catalog entries 14..19. */
  function OtolaryngologyAt(i: int): ProcedureDef {
    match i
    case 0 => ProcedureDef("Tympanostomy tube placement", "ENT", Phase(2.71, 0.30), Phase(2.89, 0.25), Phase(2.30, 0.20), Phase(2.89, 0.30))
    case 1 => ProcedureDef("Tonsillectomy", "ENT", Phase(2.89, 0.30), Phase(3.00, 0.25), Phase(3.22, 0.30), Phase(3.69, 0.40))
    case 2 => ProcedureDef("Adenoidectomy", "ENT", Phase(2.77, 0.30), Phase(2.89, 0.25), Phase(2.89, 0.25), Phase(3.40, 0.35))
    case 3 => ProcedureDef("Septoplasty", "ENT", Phase(2.89, 0.35), Phase(3.00, 0.30), Phase(3.69, 0.35), Phase(3.69, 0.40))
    case 4 => ProcedureDef("FESS (sinus surgery)", "ENT", Phase(2.89, 0.35), Phase(3.00, 0.30), Phase(3.91, 0.35), Phase(3.91, 0.40))
    case _ => ProcedureDef("Inferior turbinate reduction", "ENT", Phase(2.77, 0.30), Phase(2.89, 0.25), Phase(2.89, 0.25), Phase(3.22, 0.30))
  }

  /** Orthopedics: catalog entries 20..29. */
  function OrthopedicsAt(i: int): ProcedureDef {
    match i
    case 0 => ProcedureDef("Knee arthroscopy with meniscectomy", "Orthopedics", Phase(2.89, 0.35), Phase(3.22, 0.30), Phase(3.69, 0.35), Phase(4.09, 0.40))
    case 1 => ProcedureDef("Knee arthroscopy (diagnostic)", "Orthopedics", Phase(2.89, 0.35), Phase(3.22, 0.30), Phase(3.40, 0.30), Phase(3.91, 0.40))
    case 2 => ProcedureDef("Shoulder arthroscopy", "Orthopedics", Phase(2.89, 0.35), Phase(3.22, 0.30), Phase(4.09, 0.40), Phase(4.25, 0.45))
    case 3 => ProcedureDef("Rotator cuff repair", "Orthopedics", Phase(2.89, 0.35), Phase(3.22, 0.30), Phase(4.25, 0.40), Phase(4.38, 0.45))
    case 4 => ProcedureDef("Carpal tunnel release", "Orthopedics", Phase(2.71, 0.30), Phase(2.89, 0.25), Phase(2.56, 0.25), Phase(3.00, 0.30))
    case 5 => ProcedureDef("Trigger finger release", "Orthopedics", Phase(2.56, 0.30), Phase(2.77, 0.25), Phase(2.30, 0.20), Phase(2.77, 0.25))
    case 6 => ProcedureDef("ACL reconstruction", "Orthopedics", Phase(3.00, 0.35), Phase(3.40, 0.30), Phase(4.38, 0.40), Phase(4.50, 0.45))
    case 7 => ProcedureDef("Ankle arthroscopy", "Orthopedics", Phase(2.89, 0.35), Phase(3.22, 0.30), Phase(3.69, 0.35), Phase(3.91, 0.40))
    case 8 => ProcedureDef("Bunionectomy", "Orthopedics", Phase(2.89, 0.35), Phase(3.22, 0.30), Phase(3.69, 0.35), Phase(4.09, 0.40))
    case _ => ProcedureDef("Hammertoe correction", "Orthopedics", Phase(2.77, 0.35), Phase(3.00, 0.30), Phase(3.22, 0.30), Phase(3.69, 0.35))
  }

  /** Pain: catalog entries 30..34. */
  function PainManagementAt(i: int): ProcedureDef {
    match i
    case 0 => ProcedureDef("Lumbar epidural steroid injection", "Pain", Phase(2.56, 0.30), Phase(2.71, 0.25), Phase(2.30, 0.20), Phase(2.77, 0.30))
    case 1 => ProcedureDef("Lumbar facet joint injection", "Pain", Phase(2.56, 0.30), Phase(2.71, 0.25), Phase(2.30, 0.20), Phase(2.77, 0.30))
    case 2 => ProcedureDef("RF ablation facet joint nerves", "Pain", Phase(2.71, 0.30), Phase(2.89, 0.25), Phase(2.89, 0.30), Phase(3.22, 0.35))
    case 3 => ProcedureDef("Cervical epidural steroid injection", "Pain", Phase(2.56, 0.30), Phase(2.77, 0.25), Phase(2.30, 0.20), Phase(2.89, 0.30))
    case _ => ProcedureDef("Spinal cord stimulator trial", "Pain", Phase(2.89, 0.35), Phase(3.22, 0.30), Phase(3.91, 0.40), Phase(4.09, 0.45))
  }

  /** Urology: catalog entries 35..39. */
  function UrologyAt(i: int): ProcedureDef {
    match i
    case 0 => ProcedureDef("Cystoscopy (diagnostic)", "Urology", Phase(2.56, 0.30), Phase(2.77, 0.25), Phase(2.30, 0.20), Phase(2.77, 0.25))
    case 1 => ProcedureDef("Ureteroscopy with stent", "Urology", Phase(2.89, 0.35), Phase(3.00, 0.30), Phase(3.40, 0.35), Phase(3.69, 0.40))
    case 2 => ProcedureDef("Vasectomy", "Urology", Phase(2.56, 0.30), Phase(2.71, 0.25), Phase(2.56, 0.25), Phase(2.89, 0.30))
    case 3 => ProcedureDef("Prostate biopsy", "Urology", Phase(2.71, 0.30), Phase(2.89, 0.25), Phase(2.77, 0.25), Phase(3.22, 0.35))
    case _ => ProcedureDef("ESWL (lithotripsy)", "Urology", Phase(2.77, 0.35), Phase(2.89, 0.30), Phase(3.22, 0.30), Phase(3.69, 0.40))
  }

  /** Gynecology: catalog entries 40..45. */
  function GynecologyAt(i: int): ProcedureDef {
    match i
    case 0 => ProcedureDef("Dilation and curettage", "Gynecology", Phase(2.71, 0.30), Phase(2.89, 0.25), Phase(2.56, 0.25), Phase(3.22, 0.35))
    case 1 => ProcedureDef("Hysteroscopy with polypectomy", "Gynecology", Phase(2.77, 0.30), Phase(2.89, 0.25), Phase(2.89, 0.25), Phase(3.40, 0.35))
    case 2 => ProcedureDef("Endometrial ablation", "Gynecology", Phase(2.77, 0.30), Phase(2.89, 0.25), Phase(3.00, 0.30), Phase(3.40, 0.35))
    case 3 => ProcedureDef("LEEP procedure", "Gynecology", Phase(2.56, 0.30), Phase(2.77, 0.25), Phase(2.56, 0.25), Phase(2.89, 0.30))
    case 4 => ProcedureDef("Uterine fibroid embolization", "Gynecology", Phase(2.89, 0.35), Phase(3.22, 0.30), Phase(3.91, 0.40), Phase(4.25, 0.45))
    case _ => ProcedureDef("Tubal ligation", "Gynecology", Phase(2.77, 0.30), Phase(3.00, 0.25), Phase(3.22, 0.30), Phase(3.69, 0.40))
  }

  /** Dermatology: catalog entries 46..50. */
  function DermatologyAt(i: int): ProcedureDef {
    match i
    case 0 => ProcedureDef("Skin lesion excision", "Dermatology", Phase(2.56, 0.25), Phase(2.56, 0.20), Phase(2.56, 0.25), Phase(2.56, 0.25))
    case 1 => ProcedureDef("Mohs surgery", "Dermatology", Phase(2.71, 0.30), Phase(2.89, 0.25), Phase(3.69, 0.40), Phase(3.40, 0.35))
    case 2 => ProcedureDef("Incision and drainage of abscess", "Dermatology", Phase(2.30, 0.25), Phase(2.30, 0.20), Phase(2.30, 0.20), Phase(2.56, 0.25))
    case 3 => ProcedureDef("Scar revision", "Dermatology", Phase(2.71, 0.30), Phase(2.77, 0.25), Phase(3.00, 0.30), Phase(3.00, 0.30))
    case _ => ProcedureDef("Lipoma excision", "Dermatology", Phase(2.56, 0.25), Phase(2.56, 0.20), Phase(2.71, 0.25), Phase(2.71, 0.25))
  }

  /** General Surgery: catalog entries 51..55. */
  function GeneralSurgeryAt(i: int): ProcedureDef {
    match i
    case 0 => ProcedureDef("Laparoscopic cholecystectomy", "General", Phase(3.00, 0.35), Phase(3.22, 0.30), Phase(3.91, 0.35), Phase(4.09, 0.40))
    case 1 => ProcedureDef("Inguinal hernia repair", "General", Phase(2.89, 0.35), Phase(3.22, 0.30), Phase(3.69, 0.35), Phase(4.09, 0.40))
    case 2 => ProcedureDef("Umbilical hernia repair", "General", Phase(2.89, 0.35), Phase(3.00, 0.30), Phase(3.40, 0.30), Phase(3.69, 0.35))
    case 3 => ProcedureDef("Hemorrhoidectomy", "General", Phase(2.71, 0.30), Phase(2.89, 0.25), Phase(3.00, 0.30), Phase(3.40, 0.35))
    case _ => ProcedureDef("Breast lumpectomy", "General", Phase(2.89, 0.35), Phase(3.22, 0.30), Phase(3.69, 0.35), Phase(4.09, 0.40))
  }

  /** Cardiology: catalog entries 56..57. */
  function CardiologyAt(i: int): ProcedureDef {
    match i
    case 0 => ProcedureDef("Diagnostic cardiac catheterization", "Cardiology", Phase(3.00, 0.40), Phase(3.40, 0.35), Phase(3.91, 0.40), Phase(4.38, 0.45))
    case _ => ProcedureDef("Cardioversion", "Cardiology", Phase(2.77, 0.30), Phase(2.89, 0.25), Phase(2.56, 0.25), Phase(3.40, 0.35))
  }

  /** The catalog entries 0..57 as a list. */
  function CatalogEntries(): seq<ProcedureDef> {
    seq(58, ProcedureAt)
  }

  /** `PROCEDURES`: the catalog, in order. */
  const PROCEDURES: seq<ProcedureDef> := CatalogEntries()

  /** The service line of every procedure, in catalog order. */
  function LinesOf(ps: seq<ProcedureDef>): (r: seq<string>)
    ensures |r| == |ps|
    ensures forall i :: 0 <= i < |ps| ==> r[i] == ps[i].serviceLine
  {
    seq(|ps|, i requires 0 <= i < |ps| => ps[i].serviceLine)
  }

  /** `SERVICE_LINES`: the distinct service lines, sorted. */
  const SERVICE_LINES: seq<string> := Lexicographic.SortedUnique(LinesOf(PROCEDURES))

  /** The procedures of `ps` whose service line is `line`, in order. */
  function Select(ps: seq<ProcedureDef>, line: string): (r: seq<ProcedureDef>)
    ensures |r| <= |ps|
    ensures forall p :: p in r <==> p in ps && p.serviceLine == line
  {
    if |ps| == 0 then []
    else (if ps[0].serviceLine == line then [ps[0]] else []) + Select(ps[1..], line)
  }

  /** `get_procedures_by_service_line`. */
  function ProceduresByServiceLine(line: string): (r: seq<ProcedureDef>)
    ensures forall p :: p in r <==> p in PROCEDURES && p.serviceLine == line
  {
    Select(PROCEDURES, line)
  }

  /** `FACILITIES[facility_id]`; `None` where Python raises `KeyError`. */
  function FindFacility(id: string): (r: Option<Facility>)
    ensures r.Some? ==> r.value in FACILITIES && r.value.id == id
    ensures r.None? ==> forall f :: f in FACILITIES ==> f.id != id
  {
    FindIn(FACILITIES, id)
  }

  function FindIn(fs: seq<Facility>, id: string): (r: Option<Facility>)
    ensures r.Some? ==> r.value in fs && r.value.id == id
    ensures r.None? ==> forall f :: f in fs ==> f.id != id
  {
    if |fs| == 0 then None
    else if fs[0].id == id then Some(fs[0])
    else FindIn(fs[1..], id)
  }

  /** `bias.get(service_line, 1.0)`. */
  function BiasFor(f: Facility, line: string): real {
    if line in f.bias then f.bias[line] else 1.0
  }

  /** The list `table` maps `line` to: the first entry with that key. */
  function Lookup(table: seq<AnesthesiaEntry>, line: string): (r: Option<seq<AnesthesiaChoice>>)
    ensures r.None? <==> forall e :: e in table ==> e.line != line
    ensures r.Some? ==> AnesthesiaEntry(line, r.value) in table
  {
    if |table| == 0 then None
    else if table[0].line == line then Some(table[0].choices)
    else Lookup(table[1..], line)
  }

  /** `service_line in ANESTHESIA_TYPES`. */
  function HasAnesthesia(line: string): (b: bool)
    ensures b <==> exists e :: e in ANESTHESIA_TYPES && e.line == line
  {
    Lookup(ANESTHESIA_TYPES, line).Some?
  }

  /** `ANESTHESIA_TYPES.get(service_line, [("General", 1.0)])`. */
  function AnesthesiaChoices(line: string): (cs: seq<AnesthesiaChoice>)
    ensures HasAnesthesia(line) ==> AnesthesiaEntry(line, cs) in ANESTHESIA_TYPES
    ensures !HasAnesthesia(line) ==> cs == [AnesthesiaChoice("General", 1.0)]
  {
    match Lookup(ANESTHESIA_TYPES, line)
    case Some(cs) => cs
    case None => [AnesthesiaChoice("General", 1.0)]
  }

  /** The catalog lists 58 procedures. */
  lemma ProcedureCount()
    ensures |PROCEDURES| == 58
  {
  }
}
