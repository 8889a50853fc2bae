/**
 * The Minds actor (src/actors/minds.rs): a client that starts unauthenticated,
 * obtains an OAuth2 token when it starts, and only then sends upload and post
 * requests; plus the JSON payloads it sends.
 *
 * HTTP is not modelled: the request builder, the transport and the JSON
 * decoders are the total oracles collected in `Http`, and each handler returns
 * the requests it actually sent.
 */
module MindsActor {
  import opened Wrappers

  /** An unsigned byte, the type of the payload's numeric flags. */
  newtype u8 = x: int | 0 <= x < 256

  const OAuth2Url: string := "https://www.minds.com/oauth2/token"
  const ImagesUrl: string := "https://www.minds.com/api/v1/media"
  const PostUrl: string := "https://www.minds.com/api/v1/newsfeed"

  /** The error of every request made before the actor holds a token. */
  const NotStartedError: string := "Unable to send Minds request"

  // ---------------------------------------------------------------------------
  // Payloads
  // ---------------------------------------------------------------------------

  /** The account the actor logs in with. */
  datatype MindsConfig = MindsConfig(username: string, password: string)

  /** The OAuth2 password-grant request body. */
  datatype Auth = Auth(grantType: string, clientId: string, clientSecret: string, username: string, password: string)

  /** The password-grant body for an account: no client credentials, the account's name and password. */
  function NewAuth(username: string, password: string): (a: Auth)
    ensures a.grantType == "password"
    ensures a.clientId == "" && a.clientSecret == ""
    ensures a.username == username && a.password == password
  {
    Auth("password", "", "", username, password)
  }

  /** The token the OAuth2 endpoint grants. */
  datatype Oauth2 = Oauth2(accessToken: string, userId: string, refreshToken: string)

  /** Per-post flags. */
  datatype PostFlags = PostFlags(nsfw: bool)

  /** The newsfeed post request body. */
  datatype PostPayload = PostPayload(
    wireThreshold: Option<string>,
    message: string,
    isRich: u8,
    title: Option<string>,
    description: Option<string>,
    thumbnail: Option<string>,
    url: Option<string>,
    attachmentGuid: Option<string>,
    mature: u8,
    accessId: u8)

  /**
   * The post body: the message and attachment as given, public access (2), plain
   * text, marked mature exactly when the post is flagged NSFW, nothing else set.
   */
  function NewPost(message: string, attachmentGuid: Option<string>, flags: PostFlags): (p: PostPayload)
    ensures p.message == message && p.attachmentGuid == attachmentGuid
    ensures p.mature == 1 <==> flags.nsfw
    ensures p.mature == 0 <==> !flags.nsfw
    ensures p.accessId == 2 && p.isRich == 0
    ensures p.wireThreshold.None? && p.title.None? && p.description.None? && p.thumbnail.None? && p.url.None?
  {
    PostPayload(None, message, 0, None, None, None, None, attachmentGuid, if flags.nsfw then 1 else 0, 2)
  }

  // ---------------------------------------------------------------------------
  // Messages the actor handles
  // ---------------------------------------------------------------------------

  /** An image to upload. */
  datatype Image = Image(name: string, mime: string, data: seq<bv8>)

  /** The guid Minds assigns to an uploaded image. */
  datatype ResultImage = ImageGuid(guid: string)

  /** The guid Minds assigns to a created post. */
  datatype ResultMessage = MessageGuid(guid: string)

  /** A post to create, with the images uploaded for it, if any. */
  datatype PostMessage = PostMessage(flags: PostFlags, content: string, images: Option<seq<ResultImage>>)

  /** The attachment of a post: the first uploaded image's guid; later images are dropped. */
  function FirstGuid(images: Option<seq<ResultImage>>): (g: Option<string>)
    ensures g.Some? <==> images.Some? && |images.value| > 0
    ensures g.Some? ==> g.value == images.value[0].guid
  {
    match images
    case Some(list) => if |list| > 0 then Some(list[0].guid) else None
    case None => None
  }

  // ---------------------------------------------------------------------------
  // HTTP, as the actor sees it
  // ---------------------------------------------------------------------------

  datatype Body = AuthJson(auth: Auth) | Multipart(name: string, mime: string, data: seq<bv8>) | PostJson(post: PostPayload)

  /** A POST request: the endpoint, the bearer token if any, and the body. */
  datatype Request = Request(url: string, bearer: Option<string>, body: Body)

  /** A response status: its code, and its text as displayed in error messages. */
  datatype Status = Status(code: nat, text: string)

  /** The status codes 200 to 299. */
  predicate IsSuccess(status: Status)
  {
    200 <= status.code < 300
  }

  datatype Response = Response(status: Status, body: string)

  /**
   * The collaborators: the request builder (the error it reports, if any), the
   * transport, and the JSON decoders of a guid answer and of a token answer.
   */
  datatype Http = Http(
    prepare: Request -> Option<string>,
    send: Request -> Result<Response, string>,
    decodeGuid: string -> Result<string, string>,
    decodeOauth2: string -> Result<Oauth2, string>)

  /** The error of a rejected request. */
  function StatusError(status: Status): string
  {
    "Minds server returned error code " + status.text
  }

  /**
   * The guid in a server's answer: a transport error, a non-success status and a
   * body that does not decode are errors, each with its own message.
   */
  function ReadGuid(answer: Result<Response, string>, decodeGuid: string -> Result<string, string>,
                    transportPrefix: string, decodePrefix: string): (r: Result<string, string>)
    ensures r.Ok? <==> answer.Ok? && IsSuccess(answer.value.status) && decodeGuid(answer.value.body).Ok?
    ensures r.Ok? ==> r.value == decodeGuid(answer.value.body).value
    ensures answer.Err? ==> r == Err(transportPrefix + answer.error)
    ensures answer.Ok? && !IsSuccess(answer.value.status) ==> r == Err(StatusError(answer.value.status))
    ensures answer.Ok? && IsSuccess(answer.value.status) && decodeGuid(answer.value.body).Err? ==>
              r == Err(decodePrefix + decodeGuid(answer.value.body).error)
  {
    match answer
    case Err(e) => Err(transportPrefix + e)
    case Ok(response) =>
      if !IsSuccess(response.status) then Err(StatusError(response.status))
      else
        match decodeGuid(response.body)
        case Err(e) => Err(decodePrefix + e)
        case Ok(guid) => Ok(guid)
  }

  /** The upload handler's result for the server's answer. */
  function UploadOutcome(answer: Result<Response, string>, decodeGuid: string -> Result<string, string>): (r: Result<ResultImage, string>)
    ensures r.Ok? <==> answer.Ok? && IsSuccess(answer.value.status) && decodeGuid(answer.value.body).Ok?
    ensures r.Ok? ==> r.value == ImageGuid(decodeGuid(answer.value.body).value)
    ensures answer.Err? ==> r == Err("Minds upload error: " + answer.error)
    ensures answer.Ok? && !IsSuccess(answer.value.status) ==> r == Err(StatusError(answer.value.status))
    ensures answer.Ok? && IsSuccess(answer.value.status) && decodeGuid(answer.value.body).Err? ==>
              r == Err("Minds upload reading error: " + decodeGuid(answer.value.body).error)
  {
    match ReadGuid(answer, decodeGuid, "Minds upload error: ", "Minds upload reading error: ")
    case Ok(guid) => Ok(ImageGuid(guid))
    case Err(e) => Err(e)
  }

  /** The post handler's result for the server's answer. */
  function PostOutcome(answer: Result<Response, string>, decodeGuid: string -> Result<string, string>): (r: Result<ResultMessage, string>)
    ensures r.Ok? <==> answer.Ok? && IsSuccess(answer.value.status) && decodeGuid(answer.value.body).Ok?
    ensures r.Ok? ==> r.value == MessageGuid(decodeGuid(answer.value.body).value)
    ensures answer.Err? ==> r == Err("Minds post error: " + answer.error)
    ensures answer.Ok? && !IsSuccess(answer.value.status) ==> r == Err(StatusError(answer.value.status))
    ensures answer.Ok? && IsSuccess(answer.value.status) && decodeGuid(answer.value.body).Err? ==>
              r == Err("Minds post error: " + decodeGuid(answer.value.body).error)
  {
    match ReadGuid(answer, decodeGuid, "Minds post error: ", "Minds post error: ")
    case Ok(guid) => Ok(MessageGuid(guid))
    case Err(e) => Err(e)
  }

  /** The request the actor logs in with. */
  function AuthRequest(config: MindsConfig): Request
  {
    Request(OAuth2Url, None, AuthJson(NewAuth(config.username, config.password)))
  }

  /** The upload request for an image, authorised by a token. */
  function UploadRequest(token: string, image: Image): Request
  {
    Request(ImagesUrl, Some(token), Multipart(image.name, image.mime, image.data))
  }

  /** The newsfeed request for a post, authorised by a token. */
  function PostRequest(token: string, msg: PostMessage): Request
  {
    Request(PostUrl, Some(token), PostJson(NewPost(msg.content, FirstGuid(msg.images), msg.flags)))
  }

  // ---------------------------------------------------------------------------
  // The actor
  // ---------------------------------------------------------------------------

  /** The actor's state: waiting with its account, or holding a token. */
  datatype State = NotStarted(config: MindsConfig) | Started(oauth2: Oauth2)

  /** Why the actor stopped itself. */
  datatype StopReason =
    | AlreadyStarted
    | AuthNotSerialised(detail: string)
    | AuthTransport(detail: string)
    | AuthNotParsed(detail: string)

  /** Whether the actor keeps running after its start hook. */
  datatype Lifecycle = Running | Stopped(reason: StopReason)

  /** What logging in yields: the granted token, or why the actor stops. */
  function LoginOutcome(answer: Result<Response, string>, decodeOauth2: string -> Result<Oauth2, string>): (r: Result<Oauth2, StopReason>)
    ensures r.Ok? <==> answer.Ok? && decodeOauth2(answer.value.body).Ok?
    ensures r.Ok? ==> r.value == decodeOauth2(answer.value.body).value
  {
    match answer
    case Err(e) => Err(AuthTransport(e))
    case Ok(response) =>
      match decodeOauth2(response.body)
      case Err(e) => Err(AuthNotParsed(e))
      case Ok(oauth2) => Ok(oauth2)
  }

  class Minds {
    var state: State

    /** A new actor, not yet logged in. */
    constructor (config: MindsConfig)
      ensures state == NotStarted(config)
    {
      state := NotStarted(config);
    }

    /**
     * The start hook: logs in with the configured account. An actor that already
     * holds a token stops with an internal error and sends nothing; a failed
     * login stops the actor and leaves it not started; a granted token starts it.
     */
    method Start(http: Http) returns (life: Lifecycle, sent: seq<Request>)
      modifies this
      ensures old(state).Started? ==> life == Stopped(AlreadyStarted) && sent == [] && state == old(state)
      ensures old(state).NotStarted? && http.prepare(AuthRequest(old(state).config)).Some? ==>
                && life == Stopped(AuthNotSerialised(http.prepare(AuthRequest(old(state).config)).value))
                && sent == [] && state == old(state)
      ensures old(state).NotStarted? && http.prepare(AuthRequest(old(state).config)).None? ==>
                var req := AuthRequest(old(state).config);
                var login := LoginOutcome(http.send(req), http.decodeOauth2);
                && sent == [req]
                && (login.Ok? ==> life == Running && state == State.Started(login.value))
                && (login.Err? ==> life == Stopped(login.error) && state == old(state))
    {
      match state {
        case Started(_) =>
          return Stopped(AlreadyStarted), [];
        case NotStarted(config) =>
          var req := AuthRequest(config);
          match http.prepare(req) {
            case Some(error) =>
              return Stopped(AuthNotSerialised(error)), [];
            case None =>
          }
          sent := [req];
          match LoginOutcome(http.send(req), http.decodeOauth2) {
            case Ok(oauth2) =>
              state := State.Started(oauth2);
              life := Running;
            case Err(reason) =>
              life := Stopped(reason);
          }
      }
    }

    /**
     * Uploads an image. Before the actor holds a token nothing is sent and the
     * request fails; otherwise the multipart request is sent with the token and
     * the answer's guid is returned.
     */
    method HandleUpload(image: Image, http: Http) returns (r: Result<ResultImage, string>, sent: seq<Request>)
      ensures !state.Started? ==> r == Err(NotStartedError) && sent == []
      ensures state.Started? && http.prepare(UploadRequest(state.oauth2.accessToken, image)).Some? ==>
                r == Err(http.prepare(UploadRequest(state.oauth2.accessToken, image)).value) && sent == []
      ensures state.Started? && http.prepare(UploadRequest(state.oauth2.accessToken, image)).None? ==>
                var req := UploadRequest(state.oauth2.accessToken, image);
                sent == [req] && r == UploadOutcome(http.send(req), http.decodeGuid)
    {
      match state {
        case NotStarted(_) =>
          return Err(NotStartedError), [];
        case Started(oauth2) =>
          var req := UploadRequest(oauth2.accessToken, image);
          match http.prepare(req) {
            case Some(error) =>
              return Err(error), [];
            case None =>
              r, sent := UploadOutcome(http.send(req), http.decodeGuid), [req];
          }
      }
    }

    /**
     * Creates a post. Before the actor holds a token nothing is sent and the
     * request fails; otherwise the newsfeed request, attaching the first image's
     * guid, is sent with the token and the answer's guid is returned.
     */
    method HandlePost(msg: PostMessage, http: Http) returns (r: Result<ResultMessage, string>, sent: seq<Request>)
      ensures !state.Started? ==> r == Err(NotStartedError) && sent == []
      ensures state.Started? && http.prepare(PostRequest(state.oauth2.accessToken, msg)).Some? ==>
                r == Err("Minds post actix error: " + http.prepare(PostRequest(state.oauth2.accessToken, msg)).value) && sent == []
      ensures state.Started? && http.prepare(PostRequest(state.oauth2.accessToken, msg)).None? ==>
                var req := PostRequest(state.oauth2.accessToken, msg);
                sent == [req] && r == PostOutcome(http.send(req), http.decodeGuid)
    {
      match state {
        case NotStarted(_) =>
          return Err(NotStartedError), [];
        case Started(oauth2) =>
          var req := PostRequest(oauth2.accessToken, msg);
          match http.prepare(req) {
            case Some(error) =>
              return Err("Minds post actix error: " + error), [];
            case None =>
              r, sent := PostOutcome(http.send(req), http.decodeGuid), [req];
          }
      }
    }
  }

  // ---------------------------------------------------------------------------
  // Properties
  // ---------------------------------------------------------------------------

  /** A post request carries the first image's guid as its only attachment, whatever follows it. */
  lemma PostRequestAttachesFirstImage(token: string, flags: PostFlags, content: string,
                                      first: ResultImage, rest: seq<ResultImage>)
    ensures var req := PostRequest(token, PostMessage(flags, content, Some([first] + rest)));
      && req.url == PostUrl && req.bearer == Some(token)
      && req.body.PostJson?
      && req.body.post.attachmentGuid == Some(first.guid)
      && req.body.post.message == content
      && (req.body.post.mature == 1 <==> flags.nsfw)
  {
  }

  /** A post without images, or with an empty list, has no attachment. */
  lemma PostRequestWithoutImages(token: string, msg: PostMessage)
    requires msg.images.None? || msg.images == Some([])
    ensures PostRequest(token, msg).body.post.attachmentGuid == None
  {
  }

  /** Both handlers succeed only on a 2xx answer whose body decodes, and then return its guid. */
  lemma OutcomesAgreeOnSuccess(answer: Result<Response, string>, decodeGuid: string -> Result<string, string>)
    ensures UploadOutcome(answer, decodeGuid).Ok? <==> PostOutcome(answer, decodeGuid).Ok?
    ensures UploadOutcome(answer, decodeGuid).Ok? ==>
              && IsSuccess(answer.value.status)
              && UploadOutcome(answer, decodeGuid).value.guid == decodeGuid(answer.value.body).value
              && PostOutcome(answer, decodeGuid).value.guid == decodeGuid(answer.value.body).value
    ensures answer.Ok? && !IsSuccess(answer.value.status) ==>
              && UploadOutcome(answer, decodeGuid) == Err(StatusError(answer.value.status))
              && PostOutcome(answer, decodeGuid) == Err(StatusError(answer.value.status))
  {
  }

  /** Logging in sends the configured account's name and password with the password grant. */
  lemma AuthRequestCarriesAccount(config: MindsConfig)
    ensures var req := AuthRequest(config);
      && req.url == OAuth2Url && req.bearer.None?
      && req.body == AuthJson(Auth("password", "", "", config.username, config.password))
  {
  }

  /** A new actor that is granted a token is running and then sends the post request with that token. */
  method StartedActorServesPosts(config: MindsConfig, http: Http, msg: PostMessage)
    returns (life: Lifecycle, sent: seq<Request>)
    requires http.prepare(AuthRequest(config)).None?
    requires LoginOutcome(http.send(AuthRequest(config)), http.decodeOauth2).Ok?
    ensures life == Running
    ensures var token := LoginOutcome(http.send(AuthRequest(config)), http.decodeOauth2).value.accessToken;
      http.prepare(PostRequest(token, msg)).None? ==> sent == [PostRequest(token, msg)]
  {
    var actor := new Minds(config);
    var r;
    life, sent := actor.Start(http);
    r, sent := actor.HandlePost(msg, http);
  }
}
