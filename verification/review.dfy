/**
 The plate-review screen as a state machine. The state is the selected file,
 the detections under review and the vehicles shown; every handler of the
 screen is a pure transition on it. The capture and verify handlers are the
 screen's mocks: capture produces two fixed detections, verify copies each
 plate into a fixed vehicle record.
 */
module Review {
  import opened Wrappers
  import Ascii
  import Plate
  import Detections

  /** The browser `File` the user picked; the model only needs its identity. */
  datatype FileToken = FileToken(handle: nat)

  /** One entry of `fipe.dados`: valuation text, FIPE model text and reference month. */
  datatype FipeEntry = FipeEntry(textoValor: string, textoModelo: string, mesReferencia: string)

  /** `fipe: { dados: [...] }` */
  datatype Fipe = Fipe(dados: seq<FipeEntry>)

  /** `Omit<VehicleInfo, 'placa'>`: every field of a vehicle record but the plate. */
  datatype VehicleBase = VehicleBase(
    marca: string, modelo: string, versao: string, ano: string, chassi: string,
    cor: string, municipio: string, situacao: string,
    fipe: Option<Fipe>, logo: Option<string>)

  /** `VehicleInfo`, with `MARCA`, `MODELO` and `VERSAO` written in lower case. */
  datatype VehicleInfo = VehicleInfo(
    marca: string, modelo: string, versao: string, ano: string, chassi: string,
    cor: string, municipio: string, placa: string, situacao: string,
    fipe: Option<Fipe>, logo: Option<string>)

  /** `{ ...base, placa }` */
  function WithPlaca(b: VehicleBase, placa: string): (v: VehicleInfo)
    ensures v.placa == placa
    ensures Omit(v) == b
  {
    VehicleInfo(b.marca, b.modelo, b.versao, b.ano, b.chassi, b.cor, b.municipio, placa, b.situacao, b.fipe, b.logo)
  }

  /** Drops the plate of a vehicle record. */
  function Omit(v: VehicleInfo): VehicleBase {
    VehicleBase(v.marca, v.modelo, v.versao, v.ano, v.chassi, v.cor, v.municipio, v.situacao, v.fipe, v.logo)
  }

  /** A record is its base with its own plate put back. */
  lemma OmitWithPlaca(v: VehicleInfo)
    ensures WithPlaca(Omit(v), v.placa) == v
  {
  }

  /** The fixed record the mock verification returns for every plate. */
  const MockBase: VehicleBase := VehicleBase(
    "VW", "CROSSFOX", "CROSSFOX", "2007", "*****10137", "Prata", "São Leopoldo", "Sem restrição",
    Some(Fipe([FipeEntry("R$ 28.799,00", "CROSSFOX 1.6 Mi Total Flex 8V 5p", "maio de 2022")])),
    Some("https://apiplacas.com.br/logos/logosMarcas/vw.png"))

  /** The component state: `file`, `detections`, `vehicles`. */
  datatype State = State(file: Option<FileToken>, detections: seq<Detections.PlateDetection>, vehicles: seq<VehicleInfo>)

  /** The `useState` initial values. */
  const Init: State := State(None, [], [])

  /** The plates the mock capture reports. */
  const MockPlates: seq<string> := ["INT8C36", "XYZ1234"]

  /**
   `handleFileChange`: `files` is `e.target.files`, which may be null or
   empty; only a first file replaces the selection and clears both lists.
   */
  function HandleFileChange(s: State, files: Option<seq<FileToken>>): (t: State)
    ensures files.Some? && |files.value| > 0 ==>
              t.file == Some(files.value[0]) && t.detections == [] && t.vehicles == []
    ensures !(files.Some? && |files.value| > 0) ==> t == s
  {
    if files.Some? && |files.value| > 0 then State(Some(files.value[0]), [], []) else s
  }

  /**
   The mock `handleCapture`. `read` is the outcome of reading the selected
   file as a data URL: `None` when the reader fails, which rejects the awaited
   promise so that no detection is set. Without a file it does nothing.
   */
  function HandleCapture(s: State, read: Option<string>): (t: State)
    ensures s.file.None? || read.None? ==> t == s
    ensures s.file.Some? && read.Some? ==>
              && |t.detections| == 2
              && (forall i :: 0 <= i < 2 ==>
                    t.detections[i].id == i + 1 && t.detections[i].plate == MockPlates[i]
                    && t.detections[i].imageUrl == read.value)
    ensures t.file == s.file && t.vehicles == s.vehicles
  {
    if s.file.None? then s
    else match read
      case None => s
      case Some(dataUrl) =>
        s.(detections := [
          Detections.PlateDetection(1, "INT8C36", dataUrl),
          Detections.PlateDetection(2, "XYZ1234", dataUrl)])
  }

  /** `detections.map(d => ({ ...base, placa: d.plate }))` */
  function MockVehicles(ds: seq<Detections.PlateDetection>): (vs: seq<VehicleInfo>)
    ensures |vs| == |ds|
    ensures forall i :: 0 <= i < |ds| ==> vs[i].placa == ds[i].plate && Omit(vs[i]) == MockBase
    decreases |ds|
  {
    if ds == [] then [] else [WithPlaca(MockBase, ds[0].plate)] + MockVehicles(ds[1..])
  }

  /** The mock `handleVerify`: one base record per detection, carrying its plate. */
  function HandleVerify(s: State): (t: State)
    ensures t.file == s.file && t.detections == s.detections
    ensures |s.detections| == 0 ==> t == s
    ensures |s.detections| > 0 ==>
              && |t.vehicles| == |s.detections|
              && forall i :: 0 <= i < |t.vehicles| ==>
                   t.vehicles[i].placa == s.detections[i].plate && Omit(t.vehicles[i]) == MockBase
  {
    if |s.detections| == 0 then s else s.(vehicles := MockVehicles(s.detections))
  }

  /** `removeDetection`: only the detection list changes, and it is filtered in place. */
  function RemoveDetection(s: State, id: int): (t: State)
    ensures t.file == s.file && t.vehicles == s.vehicles
    ensures forall d :: d in t.detections ==> d.id != id
    ensures forall d :: d in s.detections && d.id != id ==> d in t.detections
    ensures Detections.IsSubsequence(t.detections, s.detections)
  {
    Detections.RemoveKeepsOrder(s.detections, id);
    s.(detections := Detections.RemoveDetection(s.detections, id))
  }

  /** `updatePlate`: only the detection list changes. */
  function UpdatePlate(s: State, id: int, input: string): (t: State)
    ensures t.file == s.file && t.vehicles == s.vehicles
    ensures |t.detections| == |s.detections|
    ensures forall i :: 0 <= i < |s.detections| ==>
              if s.detections[i].id == id
              then t.detections[i] == s.detections[i].(plate := Ascii.ToUpper(input))
              else t.detections[i] == s.detections[i]
  {
    s.(detections := Detections.UpdatePlate(s.detections, id, input))
  }

  /** `allValid`, the gate on the confirm button: there is a detection and every plate passes the validator. */
  predicate AllValid(s: State)
    ensures AllValid(s) <==>
              |s.detections| > 0 && forall i :: 0 <= i < |s.detections| ==> Plate.IsValidPlate(s.detections[i].plate)
    ensures s.detections == [] ==> !AllValid(s)
  {
    |s.detections| > 0 && Detections.EveryPlateValid(s.detections)
  }

  /** After a capture with a file selected, both mock plates are valid and confirming is enabled. */
  lemma CaptureEnablesVerify(s: State, dataUrl: string)
    requires s.file.Some?
    ensures AllValid(HandleCapture(s, Some(dataUrl)))
  {
  }

  /** Verifying twice gives what verifying once gives. */
  lemma VerifyIdempotent(s: State)
    ensures HandleVerify(HandleVerify(s)) == HandleVerify(s)
  {
  }

  /** Edits and removals leave the shown vehicles as they were, even when they no longer match a detection. */
  lemma EditsKeepStaleVehicles(s: State, id: int, input: string)
    ensures UpdatePlate(s, id, input).vehicles == s.vehicles
    ensures RemoveDetection(s, id).vehicles == s.vehicles
  {
  }

  // ----- the screen's events -----

  /** What the user can do on the screen. */
  datatype Event =
    | ChooseFiles(files: Option<seq<FileToken>>)   // file input `onChange`
    | Capture(read: Option<string>)                // "Capturar"
    | Verify                                       // "Confirmar Placas"
    | Remove(id: int)                              // a row's trash button
    | Edit(id: int, input: string)                 // a row's text input `onChange`

  /** Buttons disabled by the markup: capture needs a file, confirm needs `allValid`. */
  predicate Enabled(s: State, e: Event)
    ensures e.Verify? ==> (Enabled(s, e) <==> AllValid(s))
    ensures e.Capture? ==> (Enabled(s, e) <==> s.file.Some?)
    ensures e.Verify? && Enabled(s, e) ==> |s.detections| > 0
    ensures !(e.Capture? || e.Verify?) ==> Enabled(s, e)
  {
    match e
    case Capture(_) => s.file.Some?
    case Verify => AllValid(s)
    case _ => true
  }

  function Apply(s: State, e: Event): State {
    match e
    case ChooseFiles(files) => HandleFileChange(s, files)
    case Capture(read) => HandleCapture(s, read)
    case Verify => HandleVerify(s)
    case Remove(id) => RemoveDetection(s, id)
    case Edit(id, input) => UpdatePlate(s, id, input)
  }

  /** A click on a disabled button does nothing. */
  function Step(s: State, e: Event): State {
    if Enabled(s, e) then Apply(s, e) else s
  }

  function Run(s: State, es: seq<Event>): State
    decreases |es|
  {
    if es == [] then s else Run(Step(s, es[0]), es[1..])
  }

  /**
   What holds of every state the screen reaches: ids are distinct, lists are
   only non-empty once a file was chosen, and every vehicle shown carries a
   plate that passed the validator when it was confirmed.
   */
  predicate Inv(s: State) {
    && Detections.DistinctIds(s.detections)
    && (|s.detections| > 0 ==> s.file.Some?)
    && (|s.vehicles| > 0 ==> s.file.Some?)
    && forall i :: 0 <= i < |s.vehicles| ==> Plate.IsValidPlate(s.vehicles[i].placa)
  }

  lemma StepKeepsInv(s: State, e: Event)
    requires Inv(s)
    ensures Inv(Step(s, e))
  {
    if Enabled(s, e) {
      match e
      case ChooseFiles(files) =>
      case Capture(read) =>
      case Verify =>
      case Remove(id) =>
        Detections.RemoveKeepsDistinct(s.detections, id);
      case Edit(id, input) =>
        Detections.UpdateKeepsDistinct(s.detections, id, input);
    }
  }

  lemma {:induction false} RunKeepsInv(s: State, es: seq<Event>)
    requires Inv(s)
    ensures Inv(Run(s, es))
    decreases |es|
  {
    if es != [] {
      StepKeepsInv(s, es[0]);
      RunKeepsInv(Step(s, es[0]), es[1..]);
    }
  }

  /** Every state reachable from the initial one satisfies the invariant. */
  lemma ReachableInv(es: seq<Event>)
    ensures Inv(Run(Init, es))
  {
    RunKeepsInv(Init, es);
  }

  /**
   Choosing a file, capturing, confirming and then editing the first plate
   leaves a vehicle whose plate no longer matches its detection.
   */
  lemma StaleVehicleAfterEdit(f: FileToken, dataUrl: string)
    ensures var t := Run(Init, [ChooseFiles(Some([f])), Capture(Some(dataUrl)), Verify, Edit(1, "abc1d23")]);
            && |t.detections| == 2 && |t.vehicles| == 2
            && t.detections[0].plate == "ABC1D23"
            && t.vehicles[0].placa == "INT8C36"
  {
    var es := [ChooseFiles(Some([f])), Capture(Some(dataUrl)), Verify, Edit(1, "abc1d23")];
    var s1 := Step(Init, es[0]);
    assert s1 == State(Some(f), [], []);
    var s2 := Step(s1, es[1]);
    assert s2.detections == [
      Detections.PlateDetection(1, "INT8C36", dataUrl),
      Detections.PlateDetection(2, "XYZ1234", dataUrl)];
    assert s2.vehicles == [];
    CaptureEnablesVerify(s1, dataUrl);
    var s3 := Step(s2, es[2]);
    assert s3.detections == s2.detections;
    assert |s3.vehicles| == 2 && s3.vehicles[0].placa == "INT8C36";
    var s4 := Step(s3, es[3]);
    assert s4.vehicles == s3.vehicles;
    assert Ascii.ToUpper("abc1d23") == "ABC1D23";
    assert s4.detections[0].plate == "ABC1D23";
    RunCons(Init, es);
    RunCons(s1, es[1..]);
    RunCons(s2, es[2..]);
    RunCons(s3, es[3..]);
    assert es[1..][0] == es[1] && es[2..][0] == es[2] && es[3..][0] == es[3];
    assert es[1..][1..] == es[2..] && es[2..][1..] == es[3..] && es[3..][1..] == [];
  }

  lemma RunCons(s: State, es: seq<Event>)
    requires es != []
    ensures Run(s, es) == Run(Step(s, es[0]), es[1..])
  {
  }
}
