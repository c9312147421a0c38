/**
 * The two `/generate` handlers: serve an already stored image of an
 * activation code, or render, store and serve a new one; plus the choice of
 * the base URL and the removal of temporary logo files on each exit.
 *
 * Durable storage is a map from paths (relative to the storage root) to
 * bytes, the temporary directory a set of paths. Downloading a logo,
 * rendering a PNG and writing to storage are parameters that succeed or
 * fail (a thrown exception is a failure). Each handler is a pure
 * specification function from the state before the request to its outcome,
 * and a method of `Router` that performs the same steps on mutable state.
 */
module Routes {
  import opened Common
  import opened Activation
  import opened StoragePaths

  newtype byte = x: int | 0 <= x < 256
  type Bytes = seq<byte>

  /** The request headers `getBaseUrl` looks at: `x-forwarded-proto`,
      `req.protocol`, `x-forwarded-host` and `host`. */
  datatype Headers = Headers(
    forwardedProto: Option<string>,
    protocol: Option<string>,
    forwardedHost: Option<string>,
    host: Option<string>)

  /** The styling fields of the request, passed to the renderer unchanged. */
  datatype Style = Style(fields: map<string, string>)

  /** A request to either handler: `data`, `logoUrl` and the styling fields
      of the body or the query string, and the headers. */
  datatype Request = Request(data: Payload, logoUrl: Option<string>, style: Style, headers: Headers)

  /** `process.env.BASE_URL` and the clock reading `Date.now()`. */
  datatype Env = Env(baseUrl: Option<string>, now: nat)

  /** The calls into other code: `downloadLogo` gives a temporary path or
      fails, `generateQRCodeWithLogo` gives a PNG or fails, and
      `saveQRCodeToStorage` succeeds or fails for a path. */
  datatype Services = Services(
    download: string -> Option<string>,
    render: (Payload, Option<string>, Style) -> Option<Bytes>,
    canSave: string -> bool)

  /** What a handler did, in order. */
  datatype Effect = Download(url: string) | Render | Save(path: string) | Unlink(path: string)

  datatype RouteError = DownloadFailed | RenderFailed | SaveFailed | UnlinkFailed

  /** The 400 reply, a JSON reply with `imageUrl` and `cached`, or an error
      handed to `next`. */
  datatype Response = BadRequest | Served(imageUrl: string, cached: bool) | Failed(error: RouteError)

  /** Durable storage and the files of the temporary directory. */
  datatype World = World(store: map<string, Bytes>, temps: set<string>)

  datatype Outcome = Outcome(response: Response, world: World, effects: seq<Effect>)

  // ---------------------------------------------------------------------
  // The base URL

  /** JavaScript's `a || b` on optional strings. */
  function Or(a: Option<string>, b: Option<string>): Option<string> {
    if Truthy(a) then a else b
  }

  /** `getBaseUrl()`: the configured base URL, else one built from the
      forwarded or direct protocol (by default `http`) and host, else
      `null`. */
  function GetBaseUrl(env: Option<string>, h: Headers): Option<string> {
    if Truthy(env) then env
    else
      var protocol := Or(Or(h.forwardedProto, h.protocol), Some("http"));
      var host := Or(h.forwardedHost, h.host);
      if Truthy(protocol) && Truthy(host) then Some(protocol.value + "://" + host.value) else None
  }

  /** The priority of `getBaseUrl`: the configured value wins; otherwise the
      result is `null` exactly when no host is known, and is
      `<protocol>://<host>` with the forwarded values preferred. */
  lemma BaseUrlPriority(env: Option<string>, h: Headers)
    ensures Truthy(env) ==> GetBaseUrl(env, h) == env
    ensures !Truthy(env) ==> (GetBaseUrl(env, h).None? <==> !Truthy(h.forwardedHost) && !Truthy(h.host))
    ensures !Truthy(env) && GetBaseUrl(env, h).Some? ==>
      var protocol := if Truthy(h.forwardedProto) then h.forwardedProto.value
                      else if Truthy(h.protocol) then h.protocol.value else "http";
      var host := if Truthy(h.forwardedHost) then h.forwardedHost.value else h.host.value;
      GetBaseUrl(env, h).value == protocol + "://" + host
    ensures Truthy(GetBaseUrl(env, h)) <==> GetBaseUrl(env, h).Some?
  {
  }

  // ---------------------------------------------------------------------
  // The handlers as specification functions

  /** When the cached and success exits remove the temporary logo. */
  datatype Cleanup =
    | WhenUploaded(uploaded: bool)   // only if the logo came from the upload; unconditional unlink
    | WhenExists                     // whenever the logo file exists

  /** The `catch` block: remove the temporary logo if it exists, then pass
      the error on. */
  function Catch(w: World, logoPath: Option<string>, e: RouteError, effects: seq<Effect>): Outcome {
    if Truthy(logoPath) && logoPath.value in w.temps then
      Outcome(Failed(e), w.(temps := w.temps - {logoPath.value}), effects + [Unlink(logoPath.value)])
    else
      Outcome(Failed(e), w, effects)
  }

  /** The cleanup before a JSON reply. `fs.unlinkSync` throws on a missing
      file, which leads to the `catch` block. */
  function Finish(w: World, logoPath: Option<string>, policy: Cleanup, resp: Response, effects: seq<Effect>): Outcome {
    var wanted := match policy
      case WhenUploaded(uploaded) => uploaded
      case WhenExists => logoPath.Some? && logoPath.value in w.temps;
    if Truthy(logoPath) && wanted then
      if logoPath.value in w.temps then
        Outcome(resp, w.(temps := w.temps - {logoPath.value}), effects + [Unlink(logoPath.value)])
      else
        Catch(w, logoPath, UnlinkFailed, effects)
    else
      Outcome(resp, w, effects)
  }

  /** Both handlers once the logo is settled: an LPA payload whose image is
      stored is served from storage; anything else is rendered, written to
      its storage path and served. */
  function Generate(w: World, req: Request, logoPath: Option<string>, policy: Cleanup, env: Env,
                    sv: Services, effects: seq<Effect>): Outcome {
    var storagePath := GetStoragePath(req.data, env.now);
    var baseUrl := GetBaseUrl(env.baseUrl, req.headers);
    if IsLPAData(req.data) && storagePath in w.store then
      Finish(w, logoPath, policy, Served(GetPublicUrl(storagePath, baseUrl, env.baseUrl), true), effects)
    else
      match sv.render(req.data, logoPath, req.style)
      case None => Catch(w, logoPath, RenderFailed, effects + [Render])
      case Some(png) =>
        if !sv.canSave(storagePath) then Catch(w, logoPath, SaveFailed, effects + [Render])
        else
          Finish(w.(store := w.store[storagePath := png]), logoPath, policy,
                 Served(GetPublicUrl(storagePath, baseUrl, env.baseUrl), false),
                 effects + [Render, Save(storagePath)])
  }

  /** The state once the upload middleware has stored the uploaded file. */
  function Uploaded(w: World, upload: Option<string>): World {
    if upload.Some? then w.(temps := w.temps + {upload.value}) else w
  }

  /** `POST /generate` with the uploaded file `upload`: a download failure
      is an error; the temporary logo is removed on the cached and success
      exits only when it was uploaded, on the error exit always. */
  function PostHandler(w: World, req: Request, upload: Option<string>, env: Env, sv: Services): Outcome {
    var w0 := Uploaded(w, upload);
    if !PayloadTruthy(req.data) then Outcome(BadRequest, w0, [])
    else if upload.Some? then Generate(w0, req, upload, WhenUploaded(true), env, sv, [])
    else if Truthy(req.logoUrl) then
      var url := req.logoUrl.value;
      match sv.download(url)
      case None => Catch(w0, None, DownloadFailed, [Download(url)])
      case Some(p) => Generate(w0.(temps := w0.temps + {p}), req, Some(p), WhenUploaded(false), env, sv, [Download(url)])
    else Generate(w0, req, None, WhenUploaded(false), env, sv, [])
  }

  /** `GET /generate`: a download failure means no logo; the temporary logo
      is removed on every exit where it exists. */
  function GetHandler(w: World, req: Request, env: Env, sv: Services): Outcome {
    if !PayloadTruthy(req.data) then Outcome(BadRequest, w, [])
    else if Truthy(req.logoUrl) then
      var url := req.logoUrl.value;
      match sv.download(url)
      case None => Generate(w, req, None, WhenExists, env, sv, [Download(url)])
      case Some(p) => Generate(w.(temps := w.temps + {p}), req, Some(p), WhenExists, env, sv, [Download(url)])
    else Generate(w, req, None, WhenExists, env, sv, [])
  }

  /** `POST /generate` with the cleanup it evidently intends: the uploaded
      file is removed on the 400 exit too, and the temporary logo, uploaded
      or downloaded, on every exit where it exists. */
  function PostHandlerCleaned(w: World, req: Request, upload: Option<string>, env: Env, sv: Services): Outcome {
    var w0 := Uploaded(w, upload);
    if !PayloadTruthy(req.data) then
      if Truthy(upload) then Outcome(BadRequest, w0.(temps := w0.temps - {upload.value}), [Unlink(upload.value)])
      else Outcome(BadRequest, w0, [])
    else if upload.Some? then Generate(w0, req, upload, WhenExists, env, sv, [])
    else if Truthy(req.logoUrl) then
      var url := req.logoUrl.value;
      match sv.download(url)
      case None => Catch(w0, None, DownloadFailed, [Download(url)])
      case Some(p) => Generate(w0.(temps := w0.temps + {p}), req, Some(p), WhenExists, env, sv, [Download(url)])
    else Generate(w0, req, None, WhenExists, env, sv, [])
  }

  // ---------------------------------------------------------------------
  // Properties of the shared steps

  /** The URL of a served image: the public URL of the payload's storage
      path under the chosen base. */
  function ImageUrl(req: Request, env: Env): string {
    GetPublicUrl(GetStoragePath(req.data, env.now), GetBaseUrl(env.baseUrl, req.headers), env.baseUrl)
  }

  /** The temporary files once `logoPath` is removed, if given. */
  function Without(temps: set<string>, logoPath: Option<string>): set<string> {
    if Truthy(logoPath) then temps - {logoPath.value} else temps
  }

  /** The cleanup cannot throw: an unconditional unlink only ever meets an
      existing file. */
  predicate CleanupSafe(w: World, logoPath: Option<string>, policy: Cleanup) {
    policy == WhenUploaded(true) ==> logoPath.Some? && logoPath.value in w.temps
  }

  /** Effects recorded before the shared steps: no render yet. */
  predicate BeforeRender(effects: seq<Effect>) {
    Render !in effects
  }

  /** The error exit answers with the error, leaves storage alone and
      removes the temporary logo; at most its unlink is recorded. */
  lemma CatchFacts(w: World, logoPath: Option<string>, e: RouteError, effects: seq<Effect>)
    ensures var o := Catch(w, logoPath, e, effects);
      && o.response == Failed(e)
      && o.world.store == w.store
      && o.world.temps == Without(w.temps, logoPath)
      && (o.effects == effects || (Truthy(logoPath) && o.effects == effects + [Unlink(logoPath.value)]))
  {
  }

  /** Under a cleanup that cannot throw, the reply exit answers with the
      prepared response and leaves storage alone; it removes the logo unless
      the policy keeps a logo that was not uploaded. */
  lemma FinishFacts(w: World, logoPath: Option<string>, policy: Cleanup, resp: Response, effects: seq<Effect>)
    requires CleanupSafe(w, logoPath, policy)
    ensures var o := Finish(w, logoPath, policy, resp, effects);
      && o.response == resp
      && o.world.store == w.store
      && o.world.temps == (if policy == WhenUploaded(false) then w.temps else Without(w.temps, logoPath))
      && (o.effects == effects || (Truthy(logoPath) && o.effects == effects + [Unlink(logoPath.value)]))
  {
  }

  /** The cached exit of the shared steps: nothing is rendered or written. */
  lemma GenerateCached(w: World, req: Request, logoPath: Option<string>, policy: Cleanup, env: Env,
                       sv: Services, effects: seq<Effect>)
    requires CleanupSafe(w, logoPath, policy) && BeforeRender(effects)
    requires IsLPAData(req.data) && GetStoragePath(req.data, env.now) in w.store
    ensures var o := Generate(w, req, logoPath, policy, env, sv, effects);
      && o.response == Served(ImageUrl(req, env), true)
      && o.world.store == w.store
      && Render !in o.effects
  {
    var resp := Served(ImageUrl(req, env), true);
    assert Generate(w, req, logoPath, policy, env, sv, effects) == Finish(w, logoPath, policy, resp, effects);
    FinishFacts(w, logoPath, policy, resp, effects);
  }

  /** The render exits of the shared steps: the render is recorded, and
      storage changes only on success, at exactly the storage path. */
  lemma GenerateRendered(w: World, req: Request, logoPath: Option<string>, policy: Cleanup, env: Env,
                         sv: Services, effects: seq<Effect>)
    requires CleanupSafe(w, logoPath, policy)
    requires !(IsLPAData(req.data) && GetStoragePath(req.data, env.now) in w.store)
    ensures var o := Generate(w, req, logoPath, policy, env, sv, effects);
      var path := GetStoragePath(req.data, env.now);
      var png := sv.render(req.data, logoPath, req.style);
      && Render in o.effects
      && (png.Some? && sv.canSave(path) ==>
            && o.response == Served(ImageUrl(req, env), false)
            && o.world.store == w.store[path := png.value]
            && Save(path) in o.effects)
      && (png.None? ==> o.response == Failed(RenderFailed) && o.world.store == w.store)
      && (png.Some? && !sv.canSave(path) ==> o.response == Failed(SaveFailed) && o.world.store == w.store)
  {
    var o := Generate(w, req, logoPath, policy, env, sv, effects);
    var path := GetStoragePath(req.data, env.now);
    var png := sv.render(req.data, logoPath, req.style);
    if png.None? {
      assert o == Catch(w, logoPath, RenderFailed, effects + [Render]);
      CatchFacts(w, logoPath, RenderFailed, effects + [Render]);
      assert o.effects[|effects|] == Render;
    } else if !sv.canSave(path) {
      assert o == Catch(w, logoPath, SaveFailed, effects + [Render]);
      CatchFacts(w, logoPath, SaveFailed, effects + [Render]);
      assert o.effects[|effects|] == Render;
    } else {
      var w1 := w.(store := w.store[path := png.value]);
      var done := effects + [Render, Save(path)];
      var resp := Served(ImageUrl(req, env), false);
      assert o == Finish(w1, logoPath, policy, resp, done);
      FinishFacts(w1, logoPath, policy, resp, done);
      assert o.effects[|effects|] == Render && o.effects[|effects| + 1] == Save(path);
    }
  }

  /** The responses and the storage writes of the shared steps: a stored
      activation-code image is served as cached with nothing rendered or
      written; otherwise the payload is rendered and, when that and the
      write succeed, stored at exactly its storage path and served as not
      cached; a failure writes nothing. */
  lemma GenerateStore(w: World, req: Request, logoPath: Option<string>, policy: Cleanup, env: Env,
                      sv: Services, effects: seq<Effect>)
    requires CleanupSafe(w, logoPath, policy) && BeforeRender(effects)
    ensures var o := Generate(w, req, logoPath, policy, env, sv, effects);
      var path := GetStoragePath(req.data, env.now);
      var png := sv.render(req.data, logoPath, req.style);
      && (IsLPAData(req.data) && path in w.store ==>
            && o.response == Served(ImageUrl(req, env), true)
            && o.world.store == w.store
            && Render !in o.effects)
      && (!(IsLPAData(req.data) && path in w.store) ==>
            && Render in o.effects
            && (png.Some? && sv.canSave(path) ==>
                  && o.response == Served(ImageUrl(req, env), false)
                  && o.world.store == w.store[path := png.value]
                  && Save(path) in o.effects)
            && (png.None? ==> o.response == Failed(RenderFailed) && o.world.store == w.store)
            && (png.Some? && !sv.canSave(path) ==> o.response == Failed(SaveFailed) && o.world.store == w.store))
  {
    if IsLPAData(req.data) && GetStoragePath(req.data, env.now) in w.store {
      GenerateCached(w, req, logoPath, policy, env, sv, effects);
    } else {
      GenerateRendered(w, req, logoPath, policy, env, sv, effects);
    }
  }

  /** The temporary files after the shared steps: the logo is removed on
      every exit, except on the reply exits of a policy that keeps a
      logo that was not uploaded. */
  lemma GenerateTemps(w: World, req: Request, logoPath: Option<string>, policy: Cleanup, env: Env,
                      sv: Services, effects: seq<Effect>)
    requires CleanupSafe(w, logoPath, policy)
    ensures var o := Generate(w, req, logoPath, policy, env, sv, effects);
      && (o.response.Served? && policy == WhenUploaded(false) ==> o.world.temps == w.temps)
      && (o.response.Failed? || policy != WhenUploaded(false) ==> o.world.temps == Without(w.temps, logoPath))
  {
    var path := GetStoragePath(req.data, env.now);
    var png := sv.render(req.data, logoPath, req.style);
    var url := ImageUrl(req, env);
    if IsLPAData(req.data) && path in w.store {
      FinishFacts(w, logoPath, policy, Served(url, true), effects);
    } else if png.None? {
      CatchFacts(w, logoPath, RenderFailed, effects + [Render]);
    } else if !sv.canSave(path) {
      CatchFacts(w, logoPath, SaveFailed, effects + [Render]);
    } else {
      var w1 := w.(store := w.store[path := png.value]);
      FinishFacts(w1, logoPath, policy, Served(url, false), effects + [Render, Save(path)]);
    }
  }

  // ---------------------------------------------------------------------
  // Properties of the handlers

  /** The temporary logo of the request once the upload middleware and the
      download have run: the uploaded file, or the downloaded one. */
  function PostLogo(req: Request, upload: Option<string>, sv: Services): Option<string> {
    if upload.Some? then upload
    else if Truthy(req.logoUrl) then sv.download(req.logoUrl.value)
    else None
  }

  /** The downloaded temporary logo of a GET request, if any. */
  function GetLogo(req: Request, sv: Services): Option<string> {
    if Truthy(req.logoUrl) then sv.download(req.logoUrl.value) else None
  }

  /** A request without `data` is answered 400 before any download, render
      or storage write, and only such a request. */
  lemma {:induction false} BadRequestExit(w: World, req: Request, upload: Option<string>, env: Env, sv: Services)
    ensures PostHandler(w, req, upload, env, sv).response.BadRequest? <==> !PayloadTruthy(req.data)
    ensures GetHandler(w, req, env, sv).response.BadRequest? <==> !PayloadTruthy(req.data)
    ensures !PayloadTruthy(req.data) ==>
      && PostHandler(w, req, upload, env, sv).effects == []
      && PostHandler(w, req, upload, env, sv).world.store == w.store
      && GetHandler(w, req, env, sv) == Outcome(BadRequest, w, [])
  {
    if PayloadTruthy(req.data) {
      PostStoreWrites(w, req, upload, env, sv);
      GetStoreWrites(w, req, env, sv);
    }
  }

  /** What the POST handler writes to storage: nothing, or on a reply
      that is not cached the rendered image at exactly the payload's storage
      path; a stored activation-code image is served as cached with nothing
      rendered. Every reply carries the public URL of that path. */
  lemma {:induction false} PostStoreWrites(w: World, req: Request, upload: Option<string>, env: Env, sv: Services)
    requires PayloadTruthy(req.data)
    ensures var o := PostHandler(w, req, upload, env, sv);
      var path := GetStoragePath(req.data, env.now);
      var downloadOk := PostLogo(req, upload, sv).Some? || !Truthy(req.logoUrl);
      && !o.response.BadRequest?
      && (o.response.Served? ==> o.response.imageUrl == ImageUrl(req, env))
      && (o.response.Served? && o.response.cached <==> downloadOk && IsLPAData(req.data) && path in w.store)
      && (o.response.Served? && o.response.cached ==> o.world.store == w.store && Render !in o.effects)
      && (o.response.Served? && !o.response.cached ==>
            && sv.render(req.data, PostLogo(req, upload, sv), req.style).Some?
            && o.world.store == w.store[path := sv.render(req.data, PostLogo(req, upload, sv), req.style).value]
            && Save(path) in o.effects)
      && (!o.response.Served? ==> o.world.store == w.store)
  {
    var w0 := Uploaded(w, upload);
    if upload.Some? {
      GenerateStore(w0, req, upload, WhenUploaded(true), env, sv, []);
    } else if Truthy(req.logoUrl) {
      var url := req.logoUrl.value;
      match sv.download(url)
      case None =>
      case Some(p) =>
        GenerateStore(w0.(temps := w0.temps + {p}), req, Some(p), WhenUploaded(false), env, sv, [Download(url)]);
    } else {
      GenerateStore(w0, req, None, WhenUploaded(false), env, sv, []);
    }
  }

  /** What the GET handler writes to storage: as for POST, except that a
      failed download cannot stop it. */
  lemma {:induction false} GetStoreWrites(w: World, req: Request, env: Env, sv: Services)
    requires PayloadTruthy(req.data)
    ensures var o := GetHandler(w, req, env, sv);
      var path := GetStoragePath(req.data, env.now);
      var logo := GetLogo(req, sv);
      && !o.response.BadRequest?
      && (o.response.Served? ==> o.response.imageUrl == ImageUrl(req, env))
      && (o.response.Served? && o.response.cached <==> IsLPAData(req.data) && path in w.store)
      && (o.response.Served? && o.response.cached ==> o.world.store == w.store && Render !in o.effects)
      && (o.response.Served? && !o.response.cached ==>
            && sv.render(req.data, logo, req.style).Some?
            && o.world.store == w.store[path := sv.render(req.data, logo, req.style).value]
            && Save(path) in o.effects)
      && (!o.response.Served? ==> o.world.store == w.store)
      && (o.response.Served? <==>
            (IsLPAData(req.data) && path in w.store) || (sv.render(req.data, logo, req.style).Some? && sv.canSave(path)))
  {
    if Truthy(req.logoUrl) {
      var url := req.logoUrl.value;
      match sv.download(url)
      case None =>
        GenerateStore(w, req, None, WhenExists, env, sv, [Download(url)]);
      case Some(p) =>
        GenerateStore(w.(temps := w.temps + {p}), req, Some(p), WhenExists, env, sv, [Download(url)]);
    } else {
      GenerateStore(w, req, None, WhenExists, env, sv, []);
    }
  }

  /** Two payloads with the same non-empty activation code share one
      storage path, whatever the instants. */
  lemma SameCodeSamePath(d1: Payload, t1: nat, d2: Payload, t2: nat)
    requires Truthy(ExtractActivationCode(d1)) && ExtractActivationCode(d2) == ExtractActivationCode(d1)
    ensures IsLPAData(d2)
    ensures GetStoragePath(d2, t2) == GetStoragePath(d1, t1)
  {
    ContentAddressed(d1, t1, t1);
    ContentAddressed(d2, t2, t2);
  }

  /** Content-addressed deduplication: once a GET request for an
      activation code with a non-empty code has been served, every later GET
      request whose payload has the same code is served from storage,
      whatever the rest of its payload, the clock, the headers, the logo,
      the styling or the renderer: the later request gets the image drawn
      for the first. */
  lemma RepeatGetServedFromStore(w: World, req: Request, env: Env, sv: Services,
                                 req2: Request, env2: Env, sv2: Services)
    requires Truthy(ExtractActivationCode(req.data))
    requires ExtractActivationCode(req2.data) == ExtractActivationCode(req.data)
    requires GetHandler(w, req, env, sv).response.Served?
    ensures var w1 := GetHandler(w, req, env, sv).world;
      GetHandler(w1, req2, env2, sv2).response == Served(ImageUrl(req2, env2), true)
  {
    var w1 := GetHandler(w, req, env, sv).world;
    SameCodeSamePath(req.data, env.now, req2.data, env2.now);
    GetStoreWrites(w, req, env, sv);
    GetStoreWrites(w1, req2, env2, sv2);
  }

  /** The same for POST, provided the second request's logo download, if it
      makes one, succeeds. */
  lemma RepeatPostServedFromStore(w: World, req: Request, upload: Option<string>, env: Env, sv: Services,
                                  req2: Request, upload2: Option<string>, env2: Env, sv2: Services)
    requires Truthy(ExtractActivationCode(req.data))
    requires ExtractActivationCode(req2.data) == ExtractActivationCode(req.data)
    requires PostHandler(w, req, upload, env, sv).response.Served?
    requires PostLogo(req2, upload2, sv2).Some? || !Truthy(req2.logoUrl)
    ensures var w1 := PostHandler(w, req, upload, env, sv).world;
      PostHandler(w1, req2, upload2, env2, sv2).response == Served(ImageUrl(req2, env2), true)
  {
    var w1 := PostHandler(w, req, upload, env, sv).world;
    SameCodeSamePath(req.data, env.now, req2.data, env2.now);
    PostStoreWrites(w, req, upload, env, sv);
    PostStoreWrites(w1, req2, upload2, env2, sv2);
  }

  /** Only LPA data is ever served from storage; every other payload is
      rendered on each request. */
  lemma NonLPANeverCached(w: World, req: Request, upload: Option<string>, env: Env, sv: Services)
    requires !IsLPAData(req.data)
    ensures PostHandler(w, req, upload, env, sv).response.Served? ==> !PostHandler(w, req, upload, env, sv).response.cached
    ensures GetHandler(w, req, env, sv).response.Served? ==> !GetHandler(w, req, env, sv).response.cached
  {
    if PayloadTruthy(req.data) {
      PostStoreWrites(w, req, upload, env, sv);
      GetStoreWrites(w, req, env, sv);
    }
  }

  /** GET carries on without a logo when the download fails, exactly as if
      no logo URL had been given; POST fails instead, having written and
      rendered nothing. */
  lemma DownloadFailure(w: World, req: Request, env: Env, sv: Services)
    requires PayloadTruthy(req.data) && Truthy(req.logoUrl) && sv.download(req.logoUrl.value).None?
    ensures var o, o' := GetHandler(w, req, env, sv), GetHandler(w, req.(logoUrl := None), env, sv);
      o.response == o'.response && o.world == o'.world
    ensures PostHandler(w, req, None, env, sv) == Outcome(Failed(DownloadFailed), w, [Download(req.logoUrl.value)])
  {
  }

  /** GET leaves the temporary directory as it found it: the downloaded
      logo is removed on the cached, the success and the error exits. */
  lemma GetRemovesLogo(w: World, req: Request, env: Env, sv: Services)
    requires GetLogo(req, sv).Some? ==> GetLogo(req, sv).value != ""
    ensures var o := GetHandler(w, req, env, sv);
      o.world.temps == if PayloadTruthy(req.data) && GetLogo(req, sv).Some? then w.temps - {GetLogo(req, sv).value} else w.temps
  {
    if PayloadTruthy(req.data) && Truthy(req.logoUrl) {
      var url := req.logoUrl.value;
      match sv.download(url)
      case None =>
        GenerateTemps(w, req, None, WhenExists, env, sv, [Download(url)]);
      case Some(p) =>
        GenerateTemps(w.(temps := w.temps + {p}), req, Some(p), WhenExists, env, sv, [Download(url)]);
    } else if PayloadTruthy(req.data) {
      GenerateTemps(w, req, None, WhenExists, env, sv, []);
    }
  }

  /** POST removes an uploaded logo on every exit but the 400 one, and a
      downloaded logo on the error exits only. */
  lemma PostRemovesLogo(w: World, req: Request, upload: Option<string>, env: Env, sv: Services)
    requires PostLogo(req, upload, sv).Some? ==> PostLogo(req, upload, sv).value != ""
    requires PayloadTruthy(req.data)
    ensures var o := PostHandler(w, req, upload, env, sv);
      var logo := PostLogo(req, upload, sv);
      && (upload.Some? ==> o.world.temps == w.temps - {upload.value})
      && (upload.None? && logo.Some? && o.response.Failed? ==> o.world.temps == w.temps - {logo.value})
      && (upload.None? && logo.Some? && o.response.Served? ==> o.world.temps == w.temps + {logo.value})
      && (logo.None? ==> o.world.temps == w.temps)
  {
    var w0 := Uploaded(w, upload);
    if upload.Some? {
      GenerateTemps(w0, req, upload, WhenUploaded(true), env, sv, []);
    } else if Truthy(req.logoUrl) {
      var url := req.logoUrl.value;
      match sv.download(url)
      case None =>
      case Some(p) =>
        GenerateTemps(w0.(temps := w0.temps + {p}), req, Some(p), WhenUploaded(false), env, sv, [Download(url)]);
    } else {
      GenerateTemps(w0, req, None, WhenUploaded(false), env, sv, []);
    }
  }

  /** As written, a POST request whose logo was downloaded leaves the
      downloaded file behind whenever it is answered with an image. */
  lemma PostKeepsDownloadedLogo(w: World, req: Request, env: Env, sv: Services)
    requires PayloadTruthy(req.data) && Truthy(req.logoUrl)
    requires sv.download(req.logoUrl.value).Some? && sv.download(req.logoUrl.value).value != ""
    requires PostHandler(w, req, None, env, sv).response.Served?
    ensures sv.download(req.logoUrl.value).value in PostHandler(w, req, None, env, sv).world.temps
  {
    PostRemovesLogo(w, req, None, env, sv);
  }

  /** As written, a POST request with an uploaded file and no `data` leaves
      the uploaded file behind. */
  lemma PostKeepsUploadOnBadRequest(w: World, req: Request, p: string, env: Env, sv: Services)
    requires !PayloadTruthy(req.data)
    ensures PostHandler(w, req, Some(p), env, sv).response == BadRequest
    ensures p in PostHandler(w, req, Some(p), env, sv).world.temps
  {
  }

  /** The corrected POST handler leaves the temporary directory as it found
      it on every exit, 400 included. */
  lemma PostCleanedRemovesLogo(w: World, req: Request, upload: Option<string>, env: Env, sv: Services)
    requires PostLogo(req, upload, sv).Some? ==> PostLogo(req, upload, sv).value != ""
    ensures var o := PostHandlerCleaned(w, req, upload, env, sv);
      var logo := PostLogo(req, upload, sv);
      o.world.temps == if logo.Some? && (upload.Some? || PayloadTruthy(req.data)) then w.temps - {logo.value} else w.temps
  {
    var w0 := Uploaded(w, upload);
    if !PayloadTruthy(req.data) {
    } else if upload.Some? {
      GenerateTemps(w0, req, upload, WhenExists, env, sv, []);
    } else if Truthy(req.logoUrl) {
      var url := req.logoUrl.value;
      match sv.download(url)
      case None =>
      case Some(p) =>
        GenerateTemps(w0.(temps := w0.temps + {p}), req, Some(p), WhenExists, env, sv, [Download(url)]);
    } else {
      GenerateTemps(w0, req, None, WhenExists, env, sv, []);
    }
  }

  /** The correction changes only the temporary directory: the response and
      the storage are those of the handler as written. */
  lemma PostCleanedAgrees(w: World, req: Request, upload: Option<string>, env: Env, sv: Services)
    ensures PostHandlerCleaned(w, req, upload, env, sv).response == PostHandler(w, req, upload, env, sv).response
    ensures PostHandlerCleaned(w, req, upload, env, sv).world.store == PostHandler(w, req, upload, env, sv).world.store
  {
    var w0 := Uploaded(w, upload);
    if !PayloadTruthy(req.data) {
    } else if upload.Some? {
      GenerateStore(w0, req, upload, WhenUploaded(true), env, sv, []);
      GenerateStore(w0, req, upload, WhenExists, env, sv, []);
    } else if Truthy(req.logoUrl) {
      var url := req.logoUrl.value;
      match sv.download(url)
      case None =>
      case Some(p) =>
        GenerateStore(w0.(temps := w0.temps + {p}), req, Some(p), WhenUploaded(false), env, sv, [Download(url)]);
        GenerateStore(w0.(temps := w0.temps + {p}), req, Some(p), WhenExists, env, sv, [Download(url)]);
    } else {
      GenerateStore(w0, req, None, WhenUploaded(false), env, sv, []);
      GenerateStore(w0, req, None, WhenExists, env, sv, []);
    }
  }

  // ---------------------------------------------------------------------
  // The handlers as step sequences on the server's state

  /** Durable storage and the temporary directory of the server. */
  class Router {
    var store: map<string, Bytes>
    var temps: set<string>

    function State(): World
      reads this
    {
      World(store, temps)
    }

    constructor (store: map<string, Bytes>, temps: set<string>)
      ensures State() == World(store, temps)
    {
      this.store := store;
      this.temps := temps;
    }

    /** The `catch` block. */
    method Recover(logoPath: Option<string>, e: RouteError, before: seq<Effect>)
      returns (resp: Response, effects: seq<Effect>)
      modifies this
      ensures Outcome(resp, State(), effects) == Catch(old(State()), logoPath, e, before)
    {
      effects := before;
      if Truthy(logoPath) && logoPath.value in temps {
        temps := temps - {logoPath.value};
        effects := effects + [Unlink(logoPath.value)];
      }
      resp := Failed(e);
    }

    /** The temporary-file cleanup before a JSON reply. */
    method Reply(logoPath: Option<string>, policy: Cleanup, json: Response, before: seq<Effect>)
      returns (resp: Response, effects: seq<Effect>)
      modifies this
      ensures Outcome(resp, State(), effects) == Finish(old(State()), logoPath, policy, json, before)
    {
      var wanted := match policy
        case WhenUploaded(uploaded) => uploaded
        case WhenExists => logoPath.Some? && logoPath.value in temps;
      if Truthy(logoPath) && wanted {
        if logoPath.value !in temps {
          resp, effects := Recover(logoPath, UnlinkFailed, before);
          return;
        }
        temps := temps - {logoPath.value};
        effects := before + [Unlink(logoPath.value)];
      } else {
        effects := before;
      }
      resp := json;
    }

    /** Serve a stored activation-code image, or render, save and serve. */
    method ServeOrRender(req: Request, logoPath: Option<string>, policy: Cleanup, env: Env, sv: Services,
                         before: seq<Effect>)
      returns (resp: Response, effects: seq<Effect>)
      modifies this
      ensures Outcome(resp, State(), effects) == Generate(old(State()), req, logoPath, policy, env, sv, before)
    {
      ghost var w := State();
      var isLPA := IsLPAData(req.data);
      var storagePath := GetStoragePath(req.data, env.now);
      var baseUrl := GetBaseUrl(env.baseUrl, req.headers);
      if isLPA && storagePath in store {
        var imageUrl := GetPublicUrl(storagePath, baseUrl, env.baseUrl);
        assert Generate(w, req, logoPath, policy, env, sv, before) == Finish(w, logoPath, policy, Served(imageUrl, true), before);
        resp, effects := Reply(logoPath, policy, Served(imageUrl, true), before);
        return;
      }
      var qrCodeBuffer := sv.render(req.data, logoPath, req.style);
      effects := before + [Render];
      if qrCodeBuffer.None? {
        assert Generate(w, req, logoPath, policy, env, sv, before) == Catch(w, logoPath, RenderFailed, effects);
        resp, effects := Recover(logoPath, RenderFailed, effects);
        return;
      }
      if !sv.canSave(storagePath) {
        assert Generate(w, req, logoPath, policy, env, sv, before) == Catch(w, logoPath, SaveFailed, effects);
        resp, effects := Recover(logoPath, SaveFailed, effects);
        return;
      }
      store := store[storagePath := qrCodeBuffer.value];
      effects := effects + [Save(storagePath)];
      var imageUrl := GetPublicUrl(storagePath, baseUrl, env.baseUrl);
      assert Generate(w, req, logoPath, policy, env, sv, before) == Finish(State(), logoPath, policy, Served(imageUrl, false), effects);
      resp, effects := Reply(logoPath, policy, Served(imageUrl, false), effects);
    }

    /** `POST /generate`, with the upload middleware's file `upload`. */
    method Post(req: Request, upload: Option<string>, env: Env, sv: Services)
      returns (resp: Response, effects: seq<Effect>)
      modifies this
      ensures Outcome(resp, State(), effects) == PostHandler(old(State()), req, upload, env, sv)
    {
      ghost var spec := PostHandler(State(), req, upload, env, sv);
      if upload.Some? {
        temps := temps + {upload.value};
      }
      ghost var w0 := State();
      assert w0 == Uploaded(old(State()), upload);
      var logoPath: Option<string> := None;
      effects := [];
      if !PayloadTruthy(req.data) {
        return BadRequest, effects;
      }
      if upload.Some? {
        logoPath := upload;
        assert spec == Generate(w0, req, upload, WhenUploaded(true), env, sv, []);
        resp, effects := ServeOrRender(req, logoPath, WhenUploaded(true), env, sv, effects);
        return;
      }
      if Truthy(req.logoUrl) {
        var url := req.logoUrl.value;
        effects := [Download(url)];
        var downloaded := sv.download(url);
        if downloaded.None? {
          assert spec == Catch(w0, None, DownloadFailed, [Download(url)]);
          resp, effects := Recover(logoPath, DownloadFailed, effects);
          return;
        }
        temps := temps + {downloaded.value};
        logoPath := downloaded;
        assert State() == w0.(temps := w0.temps + {downloaded.value});
        assert spec == Generate(State(), req, downloaded, WhenUploaded(false), env, sv, [Download(url)]);
      } else {
        assert spec == Generate(w0, req, None, WhenUploaded(false), env, sv, []);
      }
      resp, effects := ServeOrRender(req, logoPath, WhenUploaded(false), env, sv, effects);
    }

    /** `GET /generate`. */
    method Get(req: Request, env: Env, sv: Services)
      returns (resp: Response, effects: seq<Effect>)
      modifies this
      ensures Outcome(resp, State(), effects) == GetHandler(old(State()), req, env, sv)
    {
      ghost var spec := GetHandler(State(), req, env, sv);
      ghost var w := State();
      var logoPath: Option<string> := None;
      effects := [];
      if !PayloadTruthy(req.data) {
        return BadRequest, effects;
      }
      if Truthy(req.logoUrl) {
        var url := req.logoUrl.value;
        effects := [Download(url)];
        var downloaded := sv.download(url);
        if downloaded.Some? {
          temps := temps + {downloaded.value};
          logoPath := downloaded;
          assert spec == Generate(w.(temps := w.temps + {downloaded.value}), req, downloaded, WhenExists, env, sv, [Download(url)]);
        } else {
          assert spec == Generate(w, req, None, WhenExists, env, sv, [Download(url)]);
        }
      } else {
        assert spec == Generate(w, req, None, WhenExists, env, sv, []);
      }
      resp, effects := ServeOrRender(req, logoPath, WhenExists, env, sv, effects);
    }
  }
}
