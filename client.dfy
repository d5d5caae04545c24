/**
 * The browser's order client (public/fetch.js): the payload that
 * `prepareFormData` builds from the wizard's data, the session id kept in
 * local storage (`getSessionId`), the size shortcut of `compressImage`, and
 * the upload request for the photo, together with what the server makes
 * of the payload and the request.
 */
module Client {
  import opened Wrappers
  import opened Text
  import Json
  import opened Orders
  import Photos
  import Wizard

  const SessionKey: String := "rg_pet_session_id"
  const SessionPrefix: String := "sess_"
  const Source: String := "rg_pet_web_app"
  /** Files below this many bytes are uploaded as they are. */
  const CompressThreshold: nat := 500000

  /** The body `submitOrder` posts to `/api/orders`. */
  datatype Payload = Payload(
    pet_name: String, pet_gender: String, pet_breed: String, pet_color: String,
    pet_birth_date: String, owner_name: String, owner_contact: String,
    address_state: String, address_city: String, address_neighborhood: String,
    address_street: String, address_number: String, preferences_team: String,
    selected_backgrounds: String, session_id: String, user_agent: String,
    source: String, generated_at: String)

  /** `obj[key] || ''` for an object whose properties are strings. */
  function Prop(obj: map<String, String>, key: String): String
  {
    if key in obj then obj[key] else ""
  }

  /**
   * `prepareFormData(formData, backgrounds)` once the session id is known:
   * `backgrounds` are the properties of the backgrounds object in order.
   */
  function BuildPayload(obj: map<String, String>, backgrounds: seq<(String, String)>,
                        sessionId: String, userAgent: String, generatedAt: String): (r: Payload)
    ensures r.session_id == sessionId && r.source == Source
    ensures r.selected_backgrounds == "{}" <==> backgrounds == []
  {
    Payload(
      pet_name := Prop(obj, "nome"),
      pet_gender := Prop(obj, "sexo"),
      pet_breed := Prop(obj, "raca"),
      pet_color := Prop(obj, "cor"),
      pet_birth_date := Prop(obj, "dataNascimento"),
      owner_name := Prop(obj, "nomeTutor"),
      owner_contact := Prop(obj, "contatoTutor"),
      address_state := Prop(obj, "estado"),
      address_city := Prop(obj, "cidade"),
      address_neighborhood := Prop(obj, "bairro"),
      address_street := Prop(obj, "rua"),
      address_number := Prop(obj, "numeroCasa"),
      preferences_team := Prop(obj, "time"),
      selected_backgrounds := Json.StringifyObject(backgrounds),
      session_id := sessionId,
      user_agent := userAgent,
      source := Source,
      generated_at := generatedAt)
  }

  /** The string properties of the wizard's `formData` (the photo is not sent). */
  function FieldsOf(fd: Wizard.FormData): map<String, String>
  {
    map[
      "nome" := fd.nome, "sexo" := fd.sexo, "nomeTutor" := fd.nomeTutor, "contatoTutor" := fd.contatoTutor,
      "raca" := fd.raca, "cor" := fd.cor, "dataNascimento" := fd.dataNascimento, "estado" := fd.estado,
      "cidade" := fd.cidade, "bairro" := fd.bairro, "rua" := fd.rua, "numeroCasa" := fd.numeroCasa,
      "time" := fd.time]
  }

  /** The documents in the order their properties were created in `currentBackgrounds`. */
  const DocumentOrder: seq<String> := ["carteira_frente", "carteira_verso", "vacina", "certidao", "medicacao", "peso"]

  /** The properties of the wizard's backgrounds object, in order. */
  function BackgroundEntries(bg: map<String, String>): (r: seq<(String, String)>)
  {
    EntriesFor(DocumentOrder, bg)
  }

  /** The keys of `keys` that `bg` holds, in the order of `keys`. */
  function Present(keys: seq<String>, bg: map<String, String>): (r: seq<String>)
    ensures |r| <= |keys|
    ensures forall j :: 0 <= j < |r| ==> r[j] in bg && r[j] in keys
    ensures forall x :: x in keys && x in bg ==> x in r
    ensures (forall k :: 0 <= k < |keys| ==> keys[k] in bg) ==> r == keys
    decreases |keys|
  {
    if keys == [] then []
    else if keys[0] in bg then [keys[0]] + Present(keys[1..], bg)
    else Present(keys[1..], bg)
  }

  /**
   * The properties `keys` names in `bg`, as (key, value) pairs: one pair
   * per present key, in the order of `keys`, each holding the key's value.
   */
  function EntriesFor(keys: seq<String>, bg: map<String, String>): (r: seq<(String, String)>)
    ensures |r| == |Present(keys, bg)|
    ensures forall j :: 0 <= j < |r| ==> r[j].0 == Present(keys, bg)[j] && r[j].0 in bg && r[j].1 == bg[r[j].0]
    decreases |keys|
  {
    if keys == [] then []
    else if keys[0] in bg then [(keys[0], bg[keys[0]])] + EntriesFor(keys[1..], bg)
    else EntriesFor(keys[1..], bg)
  }

  /** When `bg` holds every key, the entries are each key with its value, in the order of `keys`. */
  lemma EntriesForAllPresent(keys: seq<String>, bg: map<String, String>)
    requires forall k :: 0 <= k < |keys| ==> keys[k] in bg
    ensures |EntriesFor(keys, bg)| == |keys|
    ensures forall j :: 0 <= j < |keys| ==> EntriesFor(keys, bg)[j] == (keys[j], bg[keys[j]])
  {
    assert Present(keys, bg) == keys;
  }

  /** How the server reads the posted JSON: every column is present as a string. */
  function ToOrderRequest(p: Payload): OrderRequest
  {
    OrderRequest(
      Some(p.pet_name), Some(p.pet_gender), Some(p.pet_breed), Some(p.pet_color), Some(p.pet_birth_date),
      Some(p.owner_name), Some(p.owner_contact), Some(p.address_state), Some(p.address_city),
      Some(p.address_neighborhood), Some(p.address_street), Some(p.address_number),
      Some(p.preferences_team), Some(p.selected_backgrounds), Some(p.session_id), Some(p.user_agent))
  }

  /** Each wizard field goes to its backend column. */
  lemma PayloadOfForm(fd: Wizard.FormData, backgrounds: seq<(String, String)>, sid: String, ua: String, at: String)
    ensures var p := BuildPayload(FieldsOf(fd), backgrounds, sid, ua, at);
      && p.pet_name == fd.nome && p.pet_gender == fd.sexo && p.pet_breed == fd.raca && p.pet_color == fd.cor
      && p.pet_birth_date == fd.dataNascimento && p.owner_name == fd.nomeTutor && p.owner_contact == fd.contatoTutor
      && p.address_state == fd.estado && p.address_city == fd.cidade && p.address_neighborhood == fd.bairro
      && p.address_street == fd.rua && p.address_number == fd.numeroCasa && p.preferences_team == fd.time
  {
  }

  /**
   * The backgrounds travel as their JSON text, never empty and `{}` only for
   * an object without properties, and the source tag is fixed.
   */
  lemma PayloadBackgrounds(obj: map<String, String>, backgrounds: seq<(String, String)>, sid: String, ua: String, at: String)
    ensures var p := BuildPayload(obj, backgrounds, sid, ua, at);
      && p.selected_backgrounds == Json.StringifyObject(backgrounds)
      && |p.selected_backgrounds| >= 2
      && (p.selected_backgrounds == NoBackgrounds <==> backgrounds == [])
      && p.source == Source
    ensures Json.ParseObject(BuildPayload(obj, backgrounds, sid, ua, at).selected_backgrounds) == Some(backgrounds)
  {
    Json.ParseStringified(backgrounds);
  }

  /** The wizard always sends the six documents' backgrounds, so never the empty object. */
  lemma WizardBackgroundsSent(bg: map<String, String>)
    requires Wizard.BackgroundsValid(bg)
    ensures |BackgroundEntries(bg)| == |DocumentOrder|
    ensures Json.StringifyObject(BackgroundEntries(bg)) != NoBackgrounds
  {
    assert forall k :: 0 <= k < |DocumentOrder| ==> DocumentOrder[k] in Wizard.Catalog;
    EntriesForAllPresent(DocumentOrder, bg);
  }

  /**
   * The backgrounds text the wizard sends reads back, as a JSON object, to
   * each of the six documents with its chosen background, in document order.
   */
  lemma BackgroundsReadBack(bg: map<String, String>)
    requires Wizard.BackgroundsValid(bg)
    ensures var parsed := Json.ParseObject(Json.StringifyObject(BackgroundEntries(bg)));
      && parsed.Some? && |parsed.value| == |DocumentOrder|
      && forall j :: 0 <= j < |DocumentOrder| ==> parsed.value[j] == (DocumentOrder[j], bg[DocumentOrder[j]])
  {
    assert forall k :: 0 <= k < |DocumentOrder| ==> DocumentOrder[k] in Wizard.Catalog;
    EntriesForAllPresent(DocumentOrder, bg);
    Json.ParseStringified(BackgroundEntries(bg));
  }

  /**
   * The server accepts a prepared payload exactly when the pet's name and
   * gender and the owner's name and contact are non-empty.
   */
  lemma PayloadAcceptedIff(obj: map<String, String>, backgrounds: seq<(String, String)>, sid: String, ua: String, at: String,
                           id: String, nowMs: nat, randomText: String, createdAt: String, updatedAt: String)
    ensures NewOrder(ToOrderRequest(BuildPayload(obj, backgrounds, sid, ua, at)), id, nowMs, randomText, createdAt, updatedAt).Ok?
      <==> Prop(obj, "nome") != "" && Prop(obj, "sexo") != "" && Prop(obj, "nomeTutor") != "" && Prop(obj, "contatoTutor") != ""
  {
    NewOrderAcceptance(ToOrderRequest(BuildPayload(obj, backgrounds, sid, ua, at)), id, nowMs, randomText, createdAt, updatedAt);
  }

  /** Data that passed the wizard's generation gate is always accepted by the server. */
  lemma ReadyFormAccepted(fd: Wizard.FormData, backgrounds: seq<(String, String)>, sid: String, ua: String, at: String,
                          id: String, nowMs: nat, randomText: String, createdAt: String, updatedAt: String)
    requires Wizard.GenerationReady(fd)
    ensures NewOrder(ToOrderRequest(BuildPayload(FieldsOf(fd), backgrounds, sid, ua, at)), id, nowMs, randomText, createdAt, updatedAt).Ok?
  {
    PayloadOfForm(fd, backgrounds, sid, ua, at);
    PayloadAcceptedIff(FieldsOf(fd), backgrounds, sid, ua, at, id, nowMs, randomText, createdAt, updatedAt);
  }

  /**
   * What the server stores from an accepted payload: an empty team becomes
   * `nenhum_time`, the backgrounds text and a non-empty session id are kept
   * as sent.
   */
  lemma PayloadStored(obj: map<String, String>, backgrounds: seq<(String, String)>, sid: String, ua: String, at: String,
                      id: String, nowMs: nat, randomText: String, createdAt: String, updatedAt: String)
    requires NewOrder(ToOrderRequest(BuildPayload(obj, backgrounds, sid, ua, at)), id, nowMs, randomText, createdAt, updatedAt).Ok?
    ensures var o := NewOrder(ToOrderRequest(BuildPayload(obj, backgrounds, sid, ua, at)), id, nowMs, randomText, createdAt, updatedAt).value;
      && o.preferences_team == (if Prop(obj, "time") == "" then NoTeam else Prop(obj, "time"))
      && o.selected_backgrounds == Json.StringifyObject(backgrounds)
      && (sid != "" ==> o.session_id == sid)
  {
    NewOrderSentinels(ToOrderRequest(BuildPayload(obj, backgrounds, sid, ua, at)), id, nowMs, randomText, createdAt, updatedAt);
  }

  // ---------------------------------------------------------------------------
  // getSessionId

  /** `'sess_' + Date.now() + '_' + Math.random().toString(36).substr(2, 9)`. */
  function NewSessionId(nowMs: nat, randomText: String): String
  {
    SessionPrefix + Decimal(nowMs) + "_" + Substr(randomText, 2, 9)
  }

  /** A new session id starts with `sess_`, then the time in decimal and `_`, then at most 9 random characters. */
  lemma NewSessionIdShape(nowMs: nat, randomText: String)
    ensures var s := NewSessionId(nowMs, randomText);
      && StartsWith(s, SessionPrefix)
      && s[|SessionPrefix|..|SessionPrefix| + |Decimal(nowMs)|] == Decimal(nowMs)
      && s[|SessionPrefix| + |Decimal(nowMs)|] == '_'
      && |s| <= |SessionPrefix| + |Decimal(nowMs)| + 1 + 9
  {
  }

  /** The id `getSessionId` returns: the stored one when it is a non-empty string, else a new one. */
  function SessionIdFor(storage: map<String, String>, nowMs: nat, randomText: String): (r: String)
    ensures r != ""
    ensures SessionKey in storage && storage[SessionKey] != "" ==> r == storage[SessionKey]
    ensures !(SessionKey in storage && storage[SessionKey] != "") ==> StartsWith(r, SessionPrefix)
  {
    NewSessionIdShape(nowMs, randomText);
    if SessionKey in storage && storage[SessionKey] != "" then storage[SessionKey] else NewSessionId(nowMs, randomText)
  }

  /** Local storage after `getSessionId`. */
  function StorageAfter(storage: map<String, String>, nowMs: nat, randomText: String): map<String, String>
  {
    storage[SessionKey := SessionIdFor(storage, nowMs, randomText)]
  }

  /**
   * The session id is never empty, the store then holds it, and a second
   * call, whenever it happens, returns the same id and writes nothing new.
   */
  lemma SessionIdStable(storage: map<String, String>, nowMs: nat, randomText: String, laterMs: nat, laterText: String)
    ensures var id := SessionIdFor(storage, nowMs, randomText);
      var after := StorageAfter(storage, nowMs, randomText);
      && id != ""
      && after[SessionKey] == id
      && (forall k :: k in storage && k != SessionKey ==> k in after && after[k] == storage[k])
      && SessionIdFor(after, laterMs, laterText) == id
      && StorageAfter(after, laterMs, laterText) == after
  {
    var id := SessionIdFor(storage, nowMs, randomText);
    assert id == NewSessionId(nowMs, randomText) ==> id[0] == 's';
  }

  /** The storage-backed part of the client. */
  class FormDataService {
    /** `localStorage`. */
    var storage: map<String, String>

    constructor (initial: map<String, String>)
      ensures storage == initial
    {
      storage := initial;
    }

    /** `getSessionId()`: get the stored id, or create, store and return a new one. */
    method GetSessionId(nowMs: nat, randomText: String) returns (sessionId: String)
      modifies this
      ensures sessionId == SessionIdFor(old(storage), nowMs, randomText)
      ensures sessionId != ""
      ensures storage == if SessionKey in old(storage) && old(storage)[SessionKey] != "" then old(storage)
                         else StorageAfter(old(storage), nowMs, randomText)
    {
      var stored: Option<String> := if SessionKey in storage then Some(storage[SessionKey]) else None;
      if stored.Some? && stored.value != "" {
        return stored.value;
      }
      sessionId := NewSessionId(nowMs, randomText);
      assert sessionId[0] == 's';
      storage := storage[SessionKey := sessionId];
    }

    /** `prepareFormData(formData, backgrounds)`: the payload, with the session id from storage. */
    method PrepareFormData(obj: map<String, String>, backgrounds: seq<(String, String)>,
                           userAgent: String, generatedAt: String, nowMs: nat, randomText: String)
      returns (p: Payload)
      modifies this
      ensures p == BuildPayload(obj, backgrounds, SessionIdFor(old(storage), nowMs, randomText), userAgent, generatedAt)
      ensures p.session_id != ""
      ensures SessionKey in storage && storage[SessionKey] == p.session_id
      ensures SessionIdFor(storage, nowMs, randomText) == p.session_id
    {
      var sessionId := GetSessionId(nowMs, randomText);
      p := BuildPayload(obj, backgrounds, sessionId, userAgent, generatedAt);
    }
  }

  // ---------------------------------------------------------------------------
  // Photo upload

  /**
   * `compressImage(file)`: a file under 500000 bytes is returned as it is;
   * a larger one is re-encoded as a JPEG of the same name, whose size the
   * canvas encoder decides (`reencodedSize`).
   */
  function Compress(file: Wizard.File, reencodedSize: nat): (r: Wizard.File)
    ensures file.size < CompressThreshold ==> r == file
    ensures r.name == file.name
    ensures file.size >= CompressThreshold ==> r.fileType == "image/jpeg" && r.size == reencodedSize
  {
    if file.size < CompressThreshold then file
    else Wizard.File(file.name, "image/jpeg", reencodedSize)
  }

  /** The body `uploadPetPhoto` posts to `/api/upload/signed-url`. */
  function UploadRequestFor(file: Wizard.File, orderId: String): Photos.UploadRequest
  {
    Photos.UploadRequest(Some(file.name), Some(file.fileType), Some(orderId), None)
  }

  /**
   * A named photo with a type, as every photo the wizard stores has
   * (`Wizard.StoredPhotoTyped`), is never refused for missing data,
   * compressed or not, and is stored under a name whose owner token is the
   * order id when that id has no `_`.
   */
  lemma UploadOfStoredPhoto(file: Wizard.File, reencodedSize: nat, orderId: String,
                            cfg: Photos.Config, nowMs: nat)
    requires file.fileType != "" && file.name != "" && orderId != ""
    ensures var req := UploadRequestFor(Compress(file, reencodedSize), orderId);
      && Photos.SignedUpload(req, cfg, nowMs, false).Ok?
      && Photos.SignedUpload(req, cfg, nowMs, false).value.filePath
           == Photos.PhotoFolder + "/" + Photos.ObjectName(orderId, nowMs, file.name)
      && ('_' !in orderId ==>
            Photos.OwnerToken(Photos.ObjectName(orderId, nowMs, file.name)) == orderId)
  {
    var req := UploadRequestFor(Compress(file, reencodedSize), orderId);
    Photos.UploadOwnerToken(req, cfg, nowMs, false);
  }
}
