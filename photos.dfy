/**
 * Photo storage as seen by the admin server (admin/server.js): the
 * `pet-photos` folder of the storage bucket, the lookup of an order's photo
 * by the owner token of a file name (`getPetPhotoFromBucket`), and the
 * object path that the signed-upload route assigns to a new photo.
 */
module Photos {
  import opened Wrappers
  import opened Text

  /** The folder of the bucket that holds the pet photos. */
  const PhotoFolder: String := "pet-photos"
  /** The most entries one listing call returns. */
  const ListLimit: nat := 500
  /** The bucket used when `SUPABASE_BUCKET` is not set. */
  const DefaultBucket: String := "backrg"
  /** The longest sanitised upload name. */
  const NameLimit: nat := 100

  /** The environment the handlers read: `SUPABASE_URL` and `SUPABASE_BUCKET`. */
  datatype Config = Config(supabaseUrl: String, bucketEnv: Option<String>)

  function BucketName(cfg: Config): String
  {
    OrElse(cfg.bucketEnv, DefaultBucket)
  }

  /** The public URL under which the storage service serves the object at `path`. */
  function PublicUrl(cfg: Config, path: String): String
  {
    cfg.supabaseUrl + "/storage/v1/object/public/" + BucketName(cfg) + "/" + path
  }

  /** What one listing call of the photo folder returns. */
  datatype Listing = ListFailed | Listed(names: seq<String>)

  /**
   * The listing call `list('pet-photos', {limit: 500})` over the folder's
   * file names in listing order: the first 500 names, or a failure.
   */
  function ListFolder(folder: seq<String>, failed: bool): (r: Listing)
    ensures failed <==> r.ListFailed?
    ensures r.Listed? ==> |r.names| <= ListLimit && |r.names| <= |folder| && r.names == folder[..|r.names|]
    ensures r.Listed? && |folder| <= ListLimit ==> r.names == folder
    ensures r.Listed? && |folder| > ListLimit ==> r.names == folder[..ListLimit]
  {
    if failed then ListFailed
    else if |folder| <= ListLimit then Listed(folder)
    else Listed(folder[..ListLimit])
  }

  // ---------------------------------------------------------------------------
  // getPetPhotoFromBucket

  /** `name.split('_')[0]`: the order id a photo's file name claims. */
  function OwnerToken(name: String): String
  {
    FirstPart(name, '_')
  }

  /** `names.find(...)`: the index of the first name whose owner token is `id`. */
  function FindOwned(names: seq<String>, id: String): (r: Option<nat>)
    ensures r.Some? ==> r.value < |names| && OwnerToken(names[r.value]) == id
    ensures r.Some? ==> forall j :: 0 <= j < r.value ==> OwnerToken(names[j]) != id
    ensures r.None? ==> forall j :: 0 <= j < |names| ==> OwnerToken(names[j]) != id
    decreases |names|
  {
    if names == [] then None
    else if OwnerToken(names[0]) == id then Some(0)
    else match FindOwned(names[1..], id)
      case Some(i) => Some(i + 1)
      case None => None
  }

  /** The public URL of file `name` of the photo folder. */
  function PhotoUrl(cfg: Config, name: String): String
  {
    PublicUrl(cfg, PhotoFolder + "/" + name)
  }

  /**
   * `getPetPhotoFromBucket(orderId)`: the public URL of the first listed file
   * whose owner token equals the order id; no photo when the listing failed
   * or is empty, when the id is empty, or when no file matches.
   */
  function BucketPhoto(cfg: Config, orderId: String, listing: Listing): (r: Option<String>)
    ensures r.Some? ==>
      && listing.Listed? && orderId != ""
      && exists k :: 0 <= k < |listing.names| && OwnerToken(listing.names[k]) == orderId && r.value == PhotoUrl(cfg, listing.names[k])
  {
    if listing.ListFailed? then None
    else if |listing.names| == 0 then None
    else if orderId == "" then None
    else match FindOwned(listing.names, orderId)
      case Some(i) => Some(PhotoUrl(cfg, listing.names[i]))
      case None => None
  }

  /** A listed file is found exactly when some listed name carries the id, and then the first one is used. */
  lemma BucketPhotoSpec(cfg: Config, orderId: String, listing: Listing)
    ensures BucketPhoto(cfg, orderId, listing).Some? <==>
      listing.Listed? && orderId != "" && exists k :: 0 <= k < |listing.names| && OwnerToken(listing.names[k]) == orderId
    ensures BucketPhoto(cfg, orderId, listing).Some? ==>
      exists k :: 0 <= k < |listing.names|
        && OwnerToken(listing.names[k]) == orderId
        && (forall j :: 0 <= j < k ==> OwnerToken(listing.names[j]) != orderId)
        && BucketPhoto(cfg, orderId, listing) == Some(PhotoUrl(cfg, listing.names[k]))
  {
    if listing.Listed? && orderId != "" && |listing.names| > 0 {
      var r := FindOwned(listing.names, orderId);
      if r.Some? {
        assert OwnerToken(listing.names[r.value]) == orderId;
      }
    }
  }

  /** An id containing `_` is never recovered from a file name. */
  lemma UnderscoreIdNeverFound(cfg: Config, orderId: String, listing: Listing)
    requires '_' in orderId
    ensures BucketPhoto(cfg, orderId, listing) == None
  {
  }

  /** A photo that sits beyond the first 500 entries of the folder is not found. */
  lemma BeyondListLimitNotFound(cfg: Config, orderId: String, folder: seq<String>)
    requires forall j :: 0 <= j < |folder| && j < ListLimit ==> OwnerToken(folder[j]) != orderId
    ensures BucketPhoto(cfg, orderId, ListFolder(folder, false)) == None
  {
  }

  // ---------------------------------------------------------------------------
  // POST /api/upload/signed-url

  /** The characters the regular expression `[^a-z0-9.-]` leaves alone. */
  predicate SafeChar(c: char)
  {
    ('a' <= c <= 'z') || ('0' <= c <= '9') || c == '.' || c == '-'
  }

  /** `s.replace(/[^a-z0-9.-]/g, '_')`. */
  function ReplaceUnsafe(s: String): (r: String)
    ensures |r| == |s|
    ensures forall i :: 0 <= i < |s| ==> r[i] == if SafeChar(s[i]) then s[i] else '_'
    ensures forall i :: 0 <= i < |r| ==> SafeChar(r[i]) || r[i] == '_'
  {
    seq(|s|, i requires 0 <= i < |s| => if SafeChar(s[i]) then s[i] else '_')
  }

  /** Replacing the unsafe characters a second time changes nothing. */
  lemma ReplaceUnsafeIdempotent(s: String)
    ensures ReplaceUnsafe(ReplaceUnsafe(s)) == ReplaceUnsafe(s)
  {
  }

  /** `fileName.toLowerCase().replace(/[^a-z0-9.-]/g, '_').substring(0, 100)`. */
  function SanitizeFileName(name: String): String
  {
    var replaced := ReplaceUnsafe(Lower(name));
    if |replaced| <= NameLimit then replaced else replaced[..NameLimit]
  }

  /**
   * The sanitised name keeps the first 100 characters of the name, each
   * lower-cased and kept when it is in `[a-z0-9.-]`, otherwise replaced by `_`.
   */
  lemma SanitizeSpec(name: String)
    ensures var r := SanitizeFileName(name);
      && |r| == (if |name| <= NameLimit then |name| else NameLimit)
      && (forall i :: 0 <= i < |r| ==>
            r[i] == if SafeChar(LowerChar(name[i])) then LowerChar(name[i]) else '_')
      && (forall i :: 0 <= i < |r| ==> SafeChar(r[i]) || r[i] == '_')
  {
  }

  /** Sanitising is idempotent. */
  lemma SanitizeIdempotent(name: String)
    ensures SanitizeFileName(SanitizeFileName(name)) == SanitizeFileName(name)
  {
    var r := SanitizeFileName(name);
    SanitizeSpec(name);
    SanitizeSpec(r);
    assert forall i :: 0 <= i < |r| ==> LowerChar(r[i]) == r[i];
  }

  /** The upload request body. */
  datatype UploadRequest = UploadRequest(
    fileName: Option<String>, fileType: Option<String>,
    orderId: Option<String>, sessionId: Option<String>)

  datatype UploadTarget = UploadTarget(filePath: String, publicUrl: String)

  datatype UploadError =
    | MissingFileData   // 400: no file name or no file type
    | ProviderError     // 500: the storage service refused to sign the upload

  function UploadErrorStatus(e: UploadError): int
  {
    match e
    case MissingFileData => 400
    case ProviderError => 500
  }

  /** `orderId || session_id || 'unknown'`: whose photo the upload is. */
  function FileIdentifier(req: UploadRequest): String
  {
    OrElse(req.orderId, OrElse(req.sessionId, "unknown"))
  }

  /** The object name inside the photo folder: `<id>_<ts>_<sanitised name>`. */
  function ObjectName(ident: String, nowMs: nat, fileName: String): String
  {
    ident + "_" + Decimal(nowMs) + "_" + SanitizeFileName(fileName)
  }

  /**
   * The signed-upload route: rejects a request without file name or type;
   * otherwise the object goes to `pet-photos/<id>_<ts>_<name>` and the route
   * reports the public URL of that path. `signFailed` stands for the storage
   * service refusing `createSignedUploadUrl`.
   */
  function SignedUpload(req: UploadRequest, cfg: Config, nowMs: nat, signFailed: bool): (r: Result<UploadTarget, UploadError>)
    ensures r.Ok? <==> Truthy(req.fileName) && Truthy(req.fileType) && !signFailed
    ensures r.Err? ==> (r.error == MissingFileData <==> !Truthy(req.fileName) || !Truthy(req.fileType))
    ensures r.Ok? ==> StartsWith(r.value.filePath, PhotoFolder + "/")
  {
    if !Truthy(req.fileName) || !Truthy(req.fileType) then Err(MissingFileData)
    else if signFailed then Err(ProviderError)
    else
      var path := PhotoFolder + "/" + ObjectName(FileIdentifier(req), nowMs, req.fileName.value);
      Ok(UploadTarget(path, PublicUrl(cfg, path)))
  }

  /**
   * The path the upload route assigns lies in the photo folder, its name's
   * owner token is the order id whenever the id has no `_`, and the reported
   * URL is the photo URL of that name.
   */
  lemma UploadOwnerToken(req: UploadRequest, cfg: Config, nowMs: nat, signFailed: bool)
    requires SignedUpload(req, cfg, nowMs, signFailed).Ok?
    ensures var t := SignedUpload(req, cfg, nowMs, signFailed).value;
      var name := ObjectName(FileIdentifier(req), nowMs, req.fileName.value);
      && t.filePath == PhotoFolder + "/" + name
      && t.publicUrl == PhotoUrl(cfg, name)
      && ('_' !in FileIdentifier(req) ==> OwnerToken(name) == FileIdentifier(req))
  {
    var ident := FileIdentifier(req);
    var name := ObjectName(ident, nowMs, req.fileName.value);
    if '_' !in ident {
      assert name == ident + ['_'] + (Decimal(nowMs) + "_" + SanitizeFileName(req.fileName.value));
      FirstPartOf(ident, Decimal(nowMs) + "_" + SanitizeFileName(req.fileName.value), '_');
    }
  }

  /**
   * Round trip of upload and lookup: once the uploaded object is listed, and
   * no earlier listed name carries the same order id, the lookup for that
   * order returns exactly the public URL the upload route announced.
   */
  lemma UploadThenLookup(req: UploadRequest, cfg: Config, nowMs: nat, names: seq<String>, k: nat)
    requires SignedUpload(req, cfg, nowMs, false).Ok?
    requires Truthy(req.orderId) && '_' !in req.orderId.value
    requires k < |names| && names[k] == ObjectName(req.orderId.value, nowMs, req.fileName.value)
    requires forall j :: 0 <= j < k ==> OwnerToken(names[j]) != req.orderId.value
    ensures BucketPhoto(cfg, req.orderId.value, Listed(names)) == Some(SignedUpload(req, cfg, nowMs, false).value.publicUrl)
  {
    var id := req.orderId.value;
    assert FileIdentifier(req) == id;
    UploadOwnerToken(req, cfg, nowMs, false);
    assert OwnerToken(names[k]) == id;
    var found := FindOwned(names, id);
    assert found.Some?;
    assert OwnerToken(names[found.value]) == id;
    assert found.value == k;
  }
}
