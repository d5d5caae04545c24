/**
 * The seven-step registration wizard of the web page (public/script.js):
 * the `formData` record, per-step validation and saving, navigation, the
 * two photo listeners, the background selector and the generation gate,
 * and the title-casing of names (`formatarNome`).
 *
 * The DOM is replaced by its values: `Inputs` holds what the form's inputs
 * contain when a step is validated or saved, and a chosen file is a
 * `File` value.
 */
module Wizard {
  import opened Wrappers
  import opened Text

  const TotalSteps: int := 7
  /** The photo size limit of `handlePhotoUpload`: 5 MiB. */
  const MaxPhotoSize: nat := 5 * 1024 * 1024
  /** The MIME types the photo preview accepts. */
  const AllowedTypes: seq<String> := ["image/jpeg", "image/png"]

  /** A chosen file: its name, MIME type and size in bytes. */
  datatype File = File(name: String, fileType: String, size: nat)

  /** The module-level `formData` record. */
  datatype FormData = FormData(
    nome: String, foto: Option<File>, sexo: String, nomeTutor: String, contatoTutor: String,
    raca: String, cor: String, dataNascimento: String, estado: String, cidade: String,
    bairro: String, rua: String, numeroCasa: String, time: String)

  const EmptyForm: FormData := FormData("", None, "", "", "", "", "", "", "", "", "", "", "", "")

  /** The values of the form's inputs, untrimmed, as `.value` reads them. */
  datatype Inputs = Inputs(
    nome: String, sexo: String, nomeTutor: String, contatoTutor: String, dataNascimento: String,
    raca: String, cor: String, estado: String, cidade: String, bairro: String,
    rua: String, numeroCasa: String, time: String)

  /** The fields of `formData`. */
  datatype Field =
    | Nome | Foto | Sexo | NomeTutor | ContatoTutor | Raca | Cor | DataNascimento
    | Estado | Cidade | Bairro | Rua | NumeroCasa | Time

  /** The content of one field: a text, or the photo slot. */
  datatype Slot = TextSlot(text: String) | PhotoSlot(photo: Option<File>)

  function Value(fd: FormData, f: Field): Slot
  {
    match f
    case Nome => TextSlot(fd.nome)
    case Foto => PhotoSlot(fd.foto)
    case Sexo => TextSlot(fd.sexo)
    case NomeTutor => TextSlot(fd.nomeTutor)
    case ContatoTutor => TextSlot(fd.contatoTutor)
    case Raca => TextSlot(fd.raca)
    case Cor => TextSlot(fd.cor)
    case DataNascimento => TextSlot(fd.dataNascimento)
    case Estado => TextSlot(fd.estado)
    case Cidade => TextSlot(fd.cidade)
    case Bairro => TextSlot(fd.bairro)
    case Rua => TextSlot(fd.rua)
    case NumeroCasa => TextSlot(fd.numeroCasa)
    case Time => TextSlot(fd.time)
  }

  /** The input a text field is read from (the photo has none). */
  function InputOf(inp: Inputs, f: Field): String
  {
    match f
    case Nome => inp.nome
    case Foto => ""
    case Sexo => inp.sexo
    case NomeTutor => inp.nomeTutor
    case ContatoTutor => inp.contatoTutor
    case Raca => inp.raca
    case Cor => inp.cor
    case DataNascimento => inp.dataNascimento
    case Estado => inp.estado
    case Cidade => inp.cidade
    case Bairro => inp.bairro
    case Rua => inp.rua
    case NumeroCasa => inp.numeroCasa
    case Time => inp.time
  }

  /** The value a field is checked and saved as: trimmed, except the two choice fields. */
  function Entered(inp: Inputs, f: Field): String
  {
    if f == Sexo || f == Time then InputOf(inp, f) else Trim(InputOf(inp, f))
  }

  /** A field counts as filled when its text is non-empty or a photo is attached. */
  predicate Filled(fd: FormData, f: Field)
  {
    match Value(fd, f)
    case TextSlot(t) => t != ""
    case PhotoSlot(p) => p.Some?
  }

  // ---------------------------------------------------------------------------
  // validateStep

  /**
   * `validateStep(step)`: the field whose alert it raises, in the order it
   * checks them, or `None` when the step passes. The photo is checked on
   * `formData.foto`, every other field on its input.
   */
  function StepFailure(step: int, inp: Inputs, foto: Option<File>): (r: Option<Field>)
    ensures r.Some? ==> r.value in Required(step)
    ensures !(1 <= step <= TotalSteps) ==> r.None?
  {
    if step == 1 then
      if Trim(inp.nome) == "" then Some(Nome) else if inp.sexo == "" then Some(Sexo) else None
    else if step == 2 then
      if foto.None? then Some(Foto) else if Trim(inp.nomeTutor) == "" then Some(NomeTutor) else None
    else if step == 3 then
      if Trim(inp.contatoTutor) == "" then Some(ContatoTutor) else None
    else if step == 4 then
      if Trim(inp.raca) == "" then Some(Raca) else if Trim(inp.cor) == "" then Some(Cor) else None
    else if step == 5 then
      if Trim(inp.estado) == "" then Some(Estado)
      else if Trim(inp.cidade) == "" then Some(Cidade)
      else if Trim(inp.bairro) == "" then Some(Bairro)
      else None
    else if step == 6 then
      if Trim(inp.rua) == "" then Some(Rua) else if Trim(inp.numeroCasa) == "" then Some(NumeroCasa) else None
    else if step == 7 then
      if inp.time == "" then Some(Time) else None
    else None
  }

  predicate ValidateStep(step: int, inp: Inputs, foto: Option<File>)
  {
    StepFailure(step, inp, foto).None?
  }

  /** The fields each step requires, in the order the page asks for them. */
  function Required(step: int): seq<Field>
  {
    if step == 1 then [Nome, Sexo]
    else if step == 2 then [Foto, NomeTutor]
    else if step == 3 then [ContatoTutor]
    else if step == 4 then [Raca, Cor]
    else if step == 5 then [Estado, Cidade, Bairro]
    else if step == 6 then [Rua, NumeroCasa]
    else if step == 7 then [Time]
    else []
  }

  /** Whether the check for field `f` fails on these inputs and this photo. */
  predicate Blank(f: Field, inp: Inputs, foto: Option<File>)
  {
    if f == Foto then foto.None? else Entered(inp, f) == ""
  }

  /** The first of `fs` whose check fails. */
  function FirstBlank(fs: seq<Field>, inp: Inputs, foto: Option<File>): Option<Field>
    decreases |fs|
  {
    if fs == [] then None
    else if Blank(fs[0], inp, foto) then Some(fs[0])
    else FirstBlank(fs[1..], inp, foto)
  }

  /** `FirstBlank` finds a failing field preceded only by passing ones, or reports that all pass. */
  lemma {:induction false} FirstBlankSpec(fs: seq<Field>, inp: Inputs, foto: Option<File>)
    ensures var r := FirstBlank(fs, inp, foto);
      && (r.None? <==> forall j :: 0 <= j < |fs| ==> !Blank(fs[j], inp, foto))
      && (r.Some? ==> exists k :: 0 <= k < |fs| && fs[k] == r.value && Blank(fs[k], inp, foto)
                       && (forall j :: 0 <= j < k ==> !Blank(fs[j], inp, foto)))
    decreases |fs|
  {
    if fs != [] && !Blank(fs[0], inp, foto) {
      FirstBlankSpec(fs[1..], inp, foto);
      var r := FirstBlank(fs, inp, foto);
      if r.Some? {
        var k :| 0 <= k < |fs| - 1 && fs[1..][k] == r.value && Blank(fs[1..][k], inp, foto)
          && (forall j :: 0 <= j < k ==> !Blank(fs[1..][j], inp, foto));
        assert fs[k + 1] == r.value;
        assert forall j :: 1 <= j < k + 1 ==> fs[j] == fs[1..][j - 1];
      }
    }
  }

  lemma FirstBlankOfTwo(a: Field, b: Field, inp: Inputs, foto: Option<File>)
    ensures FirstBlank([a, b], inp, foto) ==
      if Blank(a, inp, foto) then Some(a) else if Blank(b, inp, foto) then Some(b) else None
  {
    assert [a, b][1..] == [b] && [b][1..] == [];
    assert FirstBlank([b], inp, foto) == if Blank(b, inp, foto) then Some(b) else FirstBlank([], inp, foto);
  }

  lemma FirstBlankOfThree(a: Field, b: Field, c: Field, inp: Inputs, foto: Option<File>)
    ensures FirstBlank([a, b, c], inp, foto) ==
      if Blank(a, inp, foto) then Some(a) else if Blank(b, inp, foto) then Some(b)
      else if Blank(c, inp, foto) then Some(c) else None
  {
    assert [a, b, c][1..] == [b, c];
    FirstBlankOfTwo(b, c, inp, foto);
  }

  /** `StepFailureFirstBlank` for the pet and owner steps. */
  lemma StepFailureEarly(step: int, inp: Inputs, foto: Option<File>)
    requires 1 <= step <= 3
    ensures StepFailure(step, inp, foto) == FirstBlank(Required(step), inp, foto)
  {
    if step == 1 {
      FirstBlankOfTwo(Nome, Sexo, inp, foto);
    } else if step == 2 {
      FirstBlankOfTwo(Foto, NomeTutor, inp, foto);
    } else {
      assert Required(step)[1..] == [];
    }
  }

  /** `StepFailureFirstBlank` for the description and city steps. */
  lemma StepFailureMiddle(step: int, inp: Inputs, foto: Option<File>)
    requires 4 <= step <= 5
    ensures StepFailure(step, inp, foto) == FirstBlank(Required(step), inp, foto)
  {
    if step == 4 {
      FirstBlankOfTwo(Raca, Cor, inp, foto);
    } else {
      FirstBlankOfThree(Estado, Cidade, Bairro, inp, foto);
    }
  }

  /** `StepFailureFirstBlank` for the street and team steps. */
  lemma StepFailureLate(step: int, inp: Inputs, foto: Option<File>)
    requires 6 <= step <= 7
    ensures StepFailure(step, inp, foto) == FirstBlank(Required(step), inp, foto)
  {
    if step == 6 {
      FirstBlankOfTwo(Rua, NumeroCasa, inp, foto);
    } else {
      assert Required(step)[1..] == [];
    }
  }

  /** Each step fails on the first of its required fields that is blank. */
  lemma StepFailureFirstBlank(step: int, inp: Inputs, foto: Option<File>)
    ensures StepFailure(step, inp, foto) == FirstBlank(Required(step), inp, foto)
  {
    if 1 <= step <= 3 {
      StepFailureEarly(step, inp, foto);
    } else if 4 <= step <= 5 {
      StepFailureMiddle(step, inp, foto);
    } else if 6 <= step <= 7 {
      StepFailureLate(step, inp, foto);
    }
  }

  /** A step passes exactly when none of its required fields is blank; steps outside 1..7 require nothing. */
  lemma ValidateStepIff(step: int, inp: Inputs, foto: Option<File>)
    ensures ValidateStep(step, inp, foto) <==> forall f :: f in Required(step) ==> !Blank(f, inp, foto)
    ensures !(1 <= step <= TotalSteps) ==> ValidateStep(step, inp, foto)
  {
    StepFailureFirstBlank(step, inp, foto);
    FirstBlankNoneIff(Required(step), inp, foto);
  }

  /** `FirstBlank` reports no field exactly when none of the fields is blank. */
  lemma FirstBlankNoneIff(fs: seq<Field>, inp: Inputs, foto: Option<File>)
    ensures FirstBlank(fs, inp, foto).None? <==> forall f :: f in fs ==> !Blank(f, inp, foto)
  {
    FirstBlankSpec(fs, inp, foto);
    if FirstBlank(fs, inp, foto).None? {
      forall f | f in fs ensures !Blank(f, inp, foto) {
        var k :| 0 <= k < |fs| && fs[k] == f;
      }
    }
  }

  // ---------------------------------------------------------------------------
  // saveStepData

  /** Whether `saveStepData(step)` writes field `f`. */
  predicate Saved(step: int, f: Field)
  {
    || (step == 1 && (f == Nome || f == Sexo))
    || (step == 2 && f == NomeTutor)
    || (step == 3 && (f == ContatoTutor || f == DataNascimento))
    || (step == 4 && (f == Raca || f == Cor))
    || (step == 5 && (f == Estado || f == Cidade || f == Bairro))
    || (step == 6 && (f == Rua || f == NumeroCasa))
    || (step == 7 && f == Time)
  }

  /** `formData` after `saveStepData(step)`. */
  function SaveStep(fd: FormData, step: int, inp: Inputs): (r: FormData)
    ensures r.foto == fd.foto
    ensures !(1 <= step <= TotalSteps) ==> r == fd
  {
    if step == 1 then fd.(nome := Trim(inp.nome), sexo := inp.sexo)
    else if step == 2 then fd.(nomeTutor := Trim(inp.nomeTutor))
    else if step == 3 then fd.(contatoTutor := Trim(inp.contatoTutor), dataNascimento := Trim(inp.dataNascimento))
    else if step == 4 then fd.(raca := Trim(inp.raca), cor := Trim(inp.cor))
    else if step == 5 then fd.(estado := Trim(inp.estado), cidade := Trim(inp.cidade), bairro := Trim(inp.bairro))
    else if step == 6 then fd.(rua := Trim(inp.rua), numeroCasa := Trim(inp.numeroCasa))
    else if step == 7 then fd.(time := inp.time)
    else fd
  }

  /**
   * Saving a step writes exactly that step's fields, each as entered
   * (trimmed except the gender and the team), and leaves every other field,
   * the photo included, as it was; steps outside 1..7 change nothing.
   */
  lemma SaveStepSpec(fd: FormData, step: int, inp: Inputs, f: Field)
    ensures Value(SaveStep(fd, step, inp), f) ==
      if Saved(step, f) then TextSlot(Entered(inp, f)) else Value(fd, f)
  {
    if 1 <= step <= 2 {
      SaveStepPet(fd, step, inp, f);
    } else if 3 <= step <= 4 {
      SaveStepOwner(fd, step, inp, f);
    } else if 5 <= step <= 6 {
      SaveStepAddress(fd, step, inp, f);
    } else {
      SaveStepLast(fd, step, inp, f);
    }
  }

  /** `SaveStepSpec` for steps 1 and 2. */
  lemma SaveStepPet(fd: FormData, step: int, inp: Inputs, f: Field)
    requires 1 <= step <= 2
    ensures Value(SaveStep(fd, step, inp), f) ==
      if Saved(step, f) then TextSlot(Entered(inp, f)) else Value(fd, f)
  {
    match f
    case Nome =>
    case Foto =>
    case Sexo =>
    case NomeTutor =>
    case ContatoTutor =>
    case Raca =>
    case Cor =>
    case DataNascimento =>
    case Estado =>
    case Cidade =>
    case Bairro =>
    case Rua =>
    case NumeroCasa =>
    case Time =>
  }

  /** `SaveStepSpec` for steps 3 and 4. */
  lemma SaveStepOwner(fd: FormData, step: int, inp: Inputs, f: Field)
    requires 3 <= step <= 4
    ensures Value(SaveStep(fd, step, inp), f) ==
      if Saved(step, f) then TextSlot(Entered(inp, f)) else Value(fd, f)
  {
    match f
    case Nome =>
    case Foto =>
    case Sexo =>
    case NomeTutor =>
    case ContatoTutor =>
    case Raca =>
    case Cor =>
    case DataNascimento =>
    case Estado =>
    case Cidade =>
    case Bairro =>
    case Rua =>
    case NumeroCasa =>
    case Time =>
  }

  /** `SaveStepSpec` for steps 5 and 6. */
  lemma SaveStepAddress(fd: FormData, step: int, inp: Inputs, f: Field)
    requires 5 <= step <= 6
    ensures Value(SaveStep(fd, step, inp), f) ==
      if Saved(step, f) then TextSlot(Entered(inp, f)) else Value(fd, f)
  {
    match f
    case Nome =>
    case Foto =>
    case Sexo =>
    case NomeTutor =>
    case ContatoTutor =>
    case Raca =>
    case Cor =>
    case DataNascimento =>
    case Estado =>
    case Cidade =>
    case Bairro =>
    case Rua =>
    case NumeroCasa =>
    case Time =>
  }

  /** `SaveStepSpec` for step 7 and the steps outside 1..7. */
  lemma SaveStepLast(fd: FormData, step: int, inp: Inputs, f: Field)
    requires !(1 <= step <= 6)
    ensures Value(SaveStep(fd, step, inp), f) ==
      if Saved(step, f) then TextSlot(Entered(inp, f)) else Value(fd, f)
  {
    match f
    case Nome =>
    case Foto =>
    case Sexo =>
    case NomeTutor =>
    case ContatoTutor =>
    case Raca =>
    case Cor =>
    case DataNascimento =>
    case Estado =>
    case Cidade =>
    case Bairro =>
    case Rua =>
    case NumeroCasa =>
    case Time =>
  }

  /** The required fields of a step all lie among the fields it saves, except the photo. */
  lemma RequiredSaved(step: int, f: Field)
    requires f in Required(step)
    ensures f == Foto || Saved(step, f)
  {
  }

  /** After a step that passed validation is saved, each field it requires is filled. */
  lemma ValidThenFilled(fd: FormData, step: int, inp: Inputs, f: Field)
    requires ValidateStep(step, inp, fd.foto) && f in Required(step)
    ensures Filled(SaveStep(fd, step, inp), f)
  {
    ValidateStepIff(step, inp, fd.foto);
    SaveStepSpec(fd, step, inp, f);
    RequiredSaved(step, f);
  }

  // ---------------------------------------------------------------------------
  // iniciarGeracao

  /** The all-fields gate of `iniciarGeracao`. */
  predicate GenerationReady(fd: FormData)
  {
    && fd.nome != "" && fd.foto.Some? && fd.sexo != "" && fd.nomeTutor != "" && fd.contatoTutor != ""
    && fd.raca != "" && fd.cor != "" && fd.estado != "" && fd.cidade != "" && fd.bairro != ""
    && fd.rua != "" && fd.numeroCasa != "" && fd.time != ""
  }

  /** The gate lets generation proceed exactly when every field some step requires is filled. */
  lemma GenerationReadyIff(fd: FormData)
    ensures GenerationReady(fd) <==>
      forall step, f :: 1 <= step <= TotalSteps && f in Required(step) ==> Filled(fd, f)
  {
    if GenerationReady(fd) {
      forall step, f | 1 <= step <= TotalSteps && f in Required(step) ensures Filled(fd, f) {
        if step == 1 {
        } else if step == 2 {
        } else if step == 3 {
        } else if step == 4 {
        } else if step == 5 {
        } else if step == 6 {
        }
      }
    } else {
      var missing: (int, Field) :=
        if fd.nome == "" then (1, Nome) else if fd.sexo == "" then (1, Sexo)
        else if fd.foto.None? then (2, Foto) else if fd.nomeTutor == "" then (2, NomeTutor)
        else if fd.contatoTutor == "" then (3, ContatoTutor)
        else if fd.raca == "" then (4, Raca) else if fd.cor == "" then (4, Cor)
        else if fd.estado == "" then (5, Estado) else if fd.cidade == "" then (5, Cidade)
        else if fd.bairro == "" then (5, Bairro)
        else if fd.rua == "" then (6, Rua) else if fd.numeroCasa == "" then (6, NumeroCasa)
        else (7, Time);
      assert missing.1 in Required(missing.0) && !Filled(fd, missing.1);
    }
  }

  // ---------------------------------------------------------------------------
  // Photo listeners

  /** The check of `handlePhotoUpload`: an image type of at most 5 MiB. */
  predicate PassesUploadCheck(f: File)
  {
    StartsWith(f.fileType, "image/") && f.size <= MaxPhotoSize
  }

  /** The type check of the preview listener: JPEG or PNG, whatever the size. */
  predicate PassesPreviewCheck(f: File)
  {
    f.fileType in AllowedTypes
  }

  /** `formData.foto` after `handlePhotoUpload` sees `file` (`None`: no file chosen). */
  function AfterUploadCheck(foto: Option<File>, file: Option<File>): Option<File>
  {
    if file.Some? && PassesUploadCheck(file.value) then file else foto
  }

  /** `formData.foto` once the preview listener, and its `onload`, have seen `file`. */
  function AfterPreview(foto: Option<File>, file: Option<File>): Option<File>
  {
    if file.Some? && PassesPreviewCheck(file.value) then file else foto
  }

  /** Both `change` listeners of `#foto`, in the order they are registered. */
  function PhotoChangeAsWritten(foto: Option<File>, file: Option<File>): (r: Option<File>)
    ensures r == foto || (file.Some? && r == file)
  {
    AfterPreview(AfterUploadCheck(foto, file), file)
  }

  /** A PNG over 5 MiB is refused by one listener and then stored by the other. */
  lemma OversizedPngStored()
    ensures var png := File("pet.png", "image/png", MaxPhotoSize + 1);
      && !PassesUploadCheck(png)
      && PhotoChangeAsWritten(None, Some(png)) == Some(png)
  {
  }

  /** A small GIF is refused by the preview yet stays in `formData.foto`. */
  lemma GifKeptAfterRejection()
    ensures var gif := File("pet.gif", "image/gif", 1024);
      && !PassesPreviewCheck(gif)
      && PhotoChangeAsWritten(None, Some(gif)) == Some(gif)
  {
    var gif := File("pet.gif", "image/gif", 1024);
    assert gif.fileType[..6] == "image/";
  }

  /**
   * Whatever the as-written listeners store in place of the previous photo
   * is the chosen file, and its type is not empty: both checks ask for one.
   */
  lemma StoredPhotoTyped(foto: Option<File>, file: Option<File>)
    ensures PhotoChangeAsWritten(foto, file) != foto ==>
      && PhotoChangeAsWritten(foto, file) == file
      && file.value.fileType != ""
      && (PassesUploadCheck(file.value) || PassesPreviewCheck(file.value))
  {
  }

  /** What both listeners mean to accept together: a JPEG or PNG of at most 5 MiB. */
  predicate AcceptPhoto(f: File)
  {
    PassesPreviewCheck(f) && f.size <= MaxPhotoSize
  }

  /** The photo change as intended: the file is stored exactly when both checks accept it. */
  function PhotoChange(foto: Option<File>, file: Option<File>): Option<File>
  {
    if file.Some? && AcceptPhoto(file.value) then file else foto
  }

  /**
   * The intended change stores the chosen file exactly when both listeners'
   * checks pass, and every photo it stores is a JPEG or PNG of at most 5 MiB.
   */
  lemma PhotoChangeSpec(foto: Option<File>, file: Option<File>)
    ensures file.Some? && PassesUploadCheck(file.value) && PassesPreviewCheck(file.value)
      ==> PhotoChange(foto, file) == file
    ensures PhotoChange(foto, file) != foto ==>
      PhotoChange(foto, file) == file && AcceptPhoto(file.value) && PassesUploadCheck(file.value)
    ensures (foto.None? || AcceptPhoto(foto.value)) ==>
      (PhotoChange(foto, file).None? || AcceptPhoto(PhotoChange(foto, file).value))
  {
    if file.Some? && AcceptPhoto(file.value) {
      var t := file.value.fileType;
      assert t == "image/jpeg" || t == "image/png";
      assert t[..6] == "image/";
    }
  }

  // ---------------------------------------------------------------------------
  // Background selector

  /** One colour swatch of a document: its colour and the background image it selects. */
  datatype Swatch = Swatch(color: String, image: String)

  /** The swatches offered for each document. */
  const Catalog: map<String, seq<Swatch>> := map[
    "carteira_frente" := [
      Swatch("#ff0088ff", "img/z7.png"), Swatch("#4ECDC4", "img/z5.png"), Swatch("#1e00ffff", "img/z1.png"),
      Swatch("#fea100ff", "img/z3.png"), Swatch("#a204b7ff", "img/z9.png")],
    "carteira_verso" := [
      Swatch("#ff0088ff", "img/z8.png"), Swatch("#4ECDC4", "img/z6.png"), Swatch("#1e00ffff", "img/z2.png"),
      Swatch("#fea100ff", "img/z4.png"), Swatch("#a204b7ff", "img/z10.png")],
    "vacina" := [
      Swatch("#FF6B6B", "img/9.png"), Swatch("#4ECDC4", "img/10.png"),
      Swatch("#45B7D1", "img/9.png"), Swatch("#96CEB4", "img/10.png")],
    "certidao" := [
      Swatch("#FFEAA7", "img/a1.png"), Swatch("#D8BFD8", "img/a2.png"),
      Swatch("#87CEEB", "img/a3.png"), Swatch("#98FB98", "img/a4.png")],
    "medicacao" := [
      Swatch("#FF9999", "img/14.png"), Swatch("#99FF99", "img/14.png"),
      Swatch("#9999FF", "img/14.png"), Swatch("#FFFF99", "img/14.png")],
    "peso" := [
      Swatch("#FFB366", "img/11.png"), Swatch("#66FFB3", "img/12.png"),
      Swatch("#B366FF", "img/11.png"), Swatch("#FF66B3", "img/12.png")]
  ]

  /** The background each document starts with. */
  const InitialBackgrounds: map<String, String> := map[
    "carteira_frente" := "img/z7.png", "carteira_verso" := "img/z8.png", "vacina" := "img/9.png",
    "certidao" := "img/a1.png", "medicacao" := "img/14.png", "peso" := "img/11.png"]

  /** The image of swatch `index` of document `key`. */
  predicate Offers(key: String, index: int, image: String)
  {
    key in Catalog && 0 <= index < |Catalog[key]| && Catalog[key][index].image == image
  }

  /** Every document has a background, and each is one its swatches offer. */
  ghost predicate BackgroundsValid(bg: map<String, String>)
  {
    bg.Keys == Catalog.Keys && forall k :: k in bg ==> exists i :: Offers(k, i, bg[k])
  }

  /** The initial backgrounds are each the first swatch of their document. */
  lemma InitialBackgroundsValid()
    ensures BackgroundsValid(InitialBackgrounds)
    ensures forall k :: k in InitialBackgrounds ==> Offers(k, 0, InitialBackgrounds[k])
  {
    assert InitialBackgrounds.Keys == Catalog.Keys;
    forall k | k in InitialBackgrounds ensures Offers(k, 0, InitialBackgrounds[k]) {
      assert InitialBackgrounds[k] == Catalog[k][0].image;
    }
  }

  // ---------------------------------------------------------------------------
  // formatarNome

  /** `palavra.charAt(0).toUpperCase() + palavra.slice(1)`. */
  function Capitalize(w: String): (r: String)
    ensures |r| == |w|
  {
    if w == [] then [] else [UpperChar(w[0])] + w[1..]
  }

  function CapitalizeAll(ws: seq<String>): (r: seq<String>)
    ensures |r| == |ws| && forall k :: 0 <= k < |ws| ==> r[k] == Capitalize(ws[k])
  {
    seq(|ws|, k requires 0 <= k < |ws| => Capitalize(ws[k]))
  }

  /** `formatarNome(nome)`. */
  function FormatName(s: String): (r: String)
    ensures |r| == |s|
  {
    if s == "" then ""
    else
      var ws := Split(Lower(s), ' ');
      JoinCapitalized(ws);
      JoinSplit(Lower(s), ' ');
      Join(CapitalizeAll(ws), ' ')
  }

  /**
   * Title case, character by character: the first character and every
   * character after a space go to upper case, the others stay.
   */
  function TitleCase(t: String): (r: String)
    ensures |r| == |t|
    ensures forall i :: 0 <= i < |t| ==> r[i] == if i == 0 || t[i - 1] == ' ' then UpperChar(t[i]) else t[i]
  {
    seq(|t|, i requires 0 <= i < |t| => if i == 0 || t[i - 1] == ' ' then UpperChar(t[i]) else t[i])
  }

  lemma TitleCaseWord(w: String)
    requires ' ' !in w
    ensures TitleCase(w) == Capitalize(w)
  {
  }

  lemma TitleCaseCons(w: String, rest: String)
    requires ' ' !in w
    ensures TitleCase(w + [' '] + rest) == Capitalize(w) + [' '] + TitleCase(rest)
  {
    var t := w + [' '] + rest;
    var lhs := TitleCase(t);
    var rhs := Capitalize(w) + [' '] + TitleCase(rest);
    forall i | 0 <= i < |t| ensures lhs[i] == rhs[i] {
      if i < |w| {
        assert t[i] == w[i];
        assert i > 0 ==> t[i - 1] == w[i - 1];
      } else if i > |w| {
        var j := i - |w| - 1;
        assert t[i] == rest[j];
        assert j > 0 ==> t[i - 1] == rest[j - 1];
      }
    }
  }

  /** Capitalising each word and joining with spaces is title casing the joined text. */
  lemma {:induction false} JoinCapitalized(ws: seq<String>)
    requires |ws| >= 1
    requires forall k :: 0 <= k < |ws| ==> ' ' !in ws[k]
    ensures Join(CapitalizeAll(ws), ' ') == TitleCase(Join(ws, ' '))
    decreases |ws|
  {
    if |ws| == 1 {
      TitleCaseWord(ws[0]);
    } else {
      JoinCapitalized(ws[1..]);
      assert CapitalizeAll(ws)[1..] == CapitalizeAll(ws[1..]);
      TitleCaseCons(ws[0], Join(ws[1..], ' '));
    }
  }

  /** `formatarNome` lower-cases the name and then upper-cases the start of each word. */
  lemma FormatNameTitleCase(s: String)
    ensures FormatName(s) == TitleCase(Lower(s))
    ensures |FormatName(s)| == |s|
  {
    if s != "" {
      var ws := Split(Lower(s), ' ');
      JoinCapitalized(ws);
      JoinSplit(Lower(s), ' ');
    }
  }

  function LowerAll(ws: seq<String>): (r: seq<String>)
    ensures |r| == |ws| && forall k :: 0 <= k < |ws| ==> r[k] == Lower(ws[k])
  {
    seq(|ws|, k requires 0 <= k < |ws| => Lower(ws[k]))
  }

  /** Lower-casing a joined text lower-cases each piece. */
  lemma {:induction false} LowerJoin(ws: seq<String>)
    ensures Lower(Join(ws, ' ')) == Join(LowerAll(ws), ' ')
    decreases |ws|
  {
    if |ws| > 1 {
      LowerJoin(ws[1..]);
      assert LowerAll(ws)[1..] == LowerAll(ws[1..]);
      LowerAppend(ws[0], [' ']);
      LowerAppend(ws[0] + [' '], Join(ws[1..], ' '));
    }
  }

  /** Lower-casing keeps spaces where they are, so the words split the same way. */
  lemma SplitLower(s: String)
    ensures var ws := Split(s, ' ');
      Split(Lower(s), ' ') == LowerAll(ws)
  {
    var ws := Split(s, ' ');
    JoinSplit(s, ' ');
    LowerJoin(ws);
    var lws := LowerAll(ws);
    forall k, i | 0 <= k < |lws| && 0 <= i < |lws[k]| ensures lws[k][i] != ' ' {
      assert ws[k][i] in ws[k];
    }
    SplitJoin(lws, ' ');
  }

  /**
   * A formatted name has the words of the name, split on single spaces, each
   * lower-cased with its first character upper-cased, and as many of them.
   */
  lemma FormatNameWords(s: String)
    requires s != ""
    ensures var ws := Split(s, ' ');
      var fs := Split(FormatName(s), ' ');
      |fs| == |ws| && forall k :: 0 <= k < |ws| ==> fs[k] == Capitalize(Lower(ws[k]))
  {
    var ls := Split(Lower(s), ' ');
    var caps := CapitalizeAll(ls);
    forall k | 0 <= k < |caps| ensures ' ' !in caps[k] {
      assert ' ' !in ls[k];
      if caps[k] != [] {
        assert caps[k][0] == UpperChar(ls[k][0]);
      }
    }
    SplitJoin(caps, ' ');
    SplitLower(s);
  }

  /** Formatting an already formatted name changes nothing. */
  lemma FormatNameIdempotent(s: String)
    ensures FormatName(FormatName(s)) == FormatName(s)
  {
    var t := Lower(s);
    FormatNameTitleCase(s);
    FormatNameTitleCase(FormatName(s));
    var r := TitleCase(t);
    assert Lower(r) == t by {
      forall i | 0 <= i < |t| ensures Lower(r)[i] == t[i] {
        assert !IsUpperLetter(t[i]);
      }
    }
  }

  // ---------------------------------------------------------------------------

  /** The page's module-level state. */
  class Registration {
    var currentStep: int
    var formData: FormData
    var currentBackgrounds: map<String, String>

    ghost predicate Valid()
      reads this
    {
      1 <= currentStep <= TotalSteps && BackgroundsValid(currentBackgrounds)
    }

    constructor ()
      ensures Valid()
      ensures currentStep == 1 && formData == EmptyForm && currentBackgrounds == InitialBackgrounds
    {
      currentStep := 1;
      formData := EmptyForm;
      currentBackgrounds := InitialBackgrounds;
      InitialBackgroundsValid();
    }

    /** `saveStepData(step)`. */
    method SaveStepData(step: int, inp: Inputs)
      requires Valid()
      modifies this
      ensures Valid()
      ensures formData == SaveStep(old(formData), step, inp)
      ensures currentStep == old(currentStep) && currentBackgrounds == old(currentBackgrounds)
    {
      if step == 1 {
        formData := formData.(nome := Trim(inp.nome));
        formData := formData.(sexo := inp.sexo);
      } else if step == 2 {
        formData := formData.(nomeTutor := Trim(inp.nomeTutor));
      } else if step == 3 {
        formData := formData.(contatoTutor := Trim(inp.contatoTutor));
        formData := formData.(dataNascimento := Trim(inp.dataNascimento));
      } else if step == 4 {
        formData := formData.(raca := Trim(inp.raca));
        formData := formData.(cor := Trim(inp.cor));
      } else if step == 5 {
        formData := formData.(estado := Trim(inp.estado));
        formData := formData.(cidade := Trim(inp.cidade));
        formData := formData.(bairro := Trim(inp.bairro));
      } else if step == 6 {
        formData := formData.(rua := Trim(inp.rua));
        formData := formData.(numeroCasa := Trim(inp.numeroCasa));
      } else if step == 7 {
        formData := formData.(time := inp.time);
      }
    }

    /**
     * `nextStep(step)`: nothing changes when the current step fails
     * validation; otherwise its data is saved and the wizard moves to `step`.
     * The target must be one of the seven step panels of the page.
     */
    method NextStep(step: int, inp: Inputs) returns (moved: bool)
      requires Valid() && 1 <= step <= TotalSteps
      modifies this
      ensures Valid()
      ensures moved == ValidateStep(old(currentStep), inp, old(formData).foto)
      ensures !moved ==> unchanged(this)
      ensures moved ==> formData == SaveStep(old(formData), old(currentStep), inp) && currentStep == step
      ensures currentBackgrounds == old(currentBackgrounds)
    {
      if !ValidateStep(currentStep, inp, formData.foto) {
        return false;
      }
      SaveStepData(currentStep, inp);
      currentStep := step;
      moved := true;
    }

    /**
     * `prevStep(step)`: the wizard goes to `step` without validating or
     * saving anything. A step with no panel makes the page throw before the
     * step is set, so nothing changes then.
     */
    method PrevStep(step: int)
      requires Valid()
      modifies this
      ensures Valid()
      ensures currentStep == if 1 <= step <= TotalSteps then step else old(currentStep)
      ensures formData == old(formData) && currentBackgrounds == old(currentBackgrounds)
    {
      if 1 <= step <= TotalSteps {
        currentStep := step;
      }
    }

    /** The `keypress` listener: Enter advances by one step while the last step is not reached. */
    method KeyPress(key: String, inp: Inputs)
      requires Valid()
      modifies this
      ensures Valid()
      ensures old(currentStep) <= currentStep <= old(currentStep) + 1
      ensures key == "Enter" && old(currentStep) < TotalSteps ==>
        (currentStep == old(currentStep) + 1 <==> ValidateStep(old(currentStep), inp, old(formData).foto))
      ensures key == "Enter" && old(currentStep) < TotalSteps ==>
        && currentBackgrounds == old(currentBackgrounds)
        && formData == (if ValidateStep(old(currentStep), inp, old(formData).foto)
                        then SaveStep(old(formData), old(currentStep), inp) else old(formData))
      ensures !(key == "Enter" && old(currentStep) < TotalSteps) ==> unchanged(this)
    {
      if key == "Enter" && currentStep < TotalSteps {
        var _ := NextStep(currentStep + 1, inp);
      }
    }

    /** `handlePhotoUpload`: the chosen file becomes the photo when it is an image of at most 5 MiB. */
    method HandlePhotoUpload(file: Option<File>)
      requires Valid()
      modifies this
      ensures Valid()
      ensures formData == old(formData).(foto := AfterUploadCheck(old(formData).foto, file))
      ensures currentStep == old(currentStep) && currentBackgrounds == old(currentBackgrounds)
    {
      if file.Some? {
        if !StartsWith(file.value.fileType, "image/") {
          return;
        }
        if file.value.size > MaxPhotoSize {
          return;
        }
        formData := formData.(foto := file);
      }
    }

    /**
     * The preview's `change` listener: any type other than JPEG or PNG is
     * refused and the photo is left alone. An accepted file is read with a
     * `FileReader`, and only its `onload` stores it; `readOk` says whether
     * the read succeeded, since a failed read has no handler and stores
     * nothing.
     */
    method PreviewPhotoChange(file: Option<File>, readOk: bool)
      requires Valid()
      modifies this
      ensures Valid()
      ensures readOk ==> formData == old(formData).(foto := AfterPreview(old(formData).foto, file))
      ensures !readOk ==> formData == old(formData)
      ensures currentStep == old(currentStep) && currentBackgrounds == old(currentBackgrounds)
    {
      if file.None? {
        return;
      }
      if file.value.fileType !in AllowedTypes {
        return;
      }
      if readOk {
        formData := formData.(foto := file);
      }
    }

    /** A change of the photo input as both listeners together mean it. */
    method ChangePhoto(file: Option<File>)
      requires Valid()
      modifies this
      ensures Valid()
      ensures formData == old(formData).(foto := PhotoChange(old(formData).foto, file))
      ensures currentStep == old(currentStep) && currentBackgrounds == old(currentBackgrounds)
    {
      if file.Some? && AcceptPhoto(file.value) {
        formData := formData.(foto := file);
      }
    }

    /** The remove button of the preview: the photo is dropped. */
    method RemovePhoto()
      requires Valid()
      modifies this
      ensures Valid()
      ensures formData == old(formData).(foto := None)
      ensures currentStep == old(currentStep) && currentBackgrounds == old(currentBackgrounds)
    {
      formData := formData.(foto := None);
    }

    /** A click on swatch `index` of document `key`: that document's background becomes the swatch's image. */
    method SelectBackground(key: String, index: int)
      requires Valid() && key in Catalog && 0 <= index < |Catalog[key]|
      modifies this
      ensures Valid()
      ensures currentBackgrounds == old(currentBackgrounds)[key := Catalog[key][index].image]
      ensures currentStep == old(currentStep) && formData == old(formData)
    {
      currentBackgrounds := currentBackgrounds[key := Catalog[key][index].image];
      assert Offers(key, index, currentBackgrounds[key]);
    }

    /**
     * `iniciarGeracao`: step 7 is validated and saved, and generation
     * proceeds only when every required field is filled.
     */
    method StartGeneration(inp: Inputs) returns (proceed: bool)
      requires Valid()
      modifies this
      ensures Valid()
      ensures !ValidateStep(TotalSteps, inp, old(formData).foto) ==> !proceed && unchanged(this)
      ensures ValidateStep(TotalSteps, inp, old(formData).foto) ==>
        formData == SaveStep(old(formData), TotalSteps, inp) && proceed == GenerationReady(formData)
      ensures proceed ==> forall step, f :: 1 <= step <= TotalSteps && f in Required(step) ==> Filled(formData, f)
      ensures currentStep == old(currentStep) && currentBackgrounds == old(currentBackgrounds)
    {
      if !ValidateStep(TotalSteps, inp, formData.foto) {
        return false;
      }
      SaveStepData(TotalSteps, inp);
      proceed := GenerationReady(formData);
      GenerationReadyIff(formData);
    }
  }
}
