/**
 * The publish orchestrator (src/lib/api/mod.rs): a registry with one optional
 * client per platform, a take-once container of per-platform outcomes, and the
 * `send` operation that composes the message, loads every image before any
 * network call, and fans the post out to every enabled platform.
 *
 * The network, the image loader and `join_hash_tags` are not modelled: they are
 * the total oracles collected in `Services`. Every network call the model issues
 * is recorded, in order, in a trace of `Call`s.
 */
module Api {
  import opened Wrappers

  // ---------------------------------------------------------------------------
  // Platforms and four-slot structures
  // ---------------------------------------------------------------------------

  /** The four platforms, in the canonical slot order of every result. */
  datatype PlatformId = Twitter | Gab | Mastodon | Minds

  /** One value per platform, in the order Twitter, Gab, Mastodon, Minds. */
  datatype Slots<T> = Slots(twitter: T, gab: T, mastodon: T, minds: T)
  {
    /** The value held in platform `p`'s slot. */
    function Get(p: PlatformId): T
    {
      match p
      case Twitter => twitter
      case Gab => gab
      case Mastodon => mastodon
      case Minds => minds
    }

    /** Replaces platform `p`'s slot, leaving the other three as they are. */
    function Set(p: PlatformId, v: T): (r: Slots<T>)
      ensures r.Get(p) == v
      ensures forall q :: q != p ==> r.Get(q) == Get(q)
    {
      match p
      case Twitter => this.(twitter := v)
      case Gab => this.(gab := v)
      case Mastodon => this.(mastodon := v)
      case Minds => this.(minds := v)
    }
  }

  // ---------------------------------------------------------------------------
  // Values exchanged with the collaborators
  // ---------------------------------------------------------------------------

  /** Why an image file could not be opened. */
  datatype IoError = IoError(detail: string)

  /** An error reported by one platform's client. */
  datatype PlatformError = PlatformError(detail: string)

  /** The errors of this layer: a pre-flight image failure, or a platform's own error tagged with it. */
  datatype ApiError =
    | CannotLoadImage(path: string, ioError: IoError)
    | PlatformFailure(platform: PlatformId, platformError: PlatformError)

  /** The identifier a platform assigns to a created post. */
  datatype PostId = PostId(id: string)

  /** A platform's reference to an uploaded image, usable in a later post. */
  datatype MediaRef = MediaRef(id: string)

  /** A loaded image: file name, MIME type and content. */
  datatype Image = Image(name: string, mime: string, data: seq<bv8>)

  /** Per-post flags handed through to every platform. */
  datatype PostFlags = PostFlags(nsfw: bool)

  /** A post request: message, hashtags, flags, and the paths of the images to attach. */
  datatype Post = Post(message: string, tags: seq<string>, flags: PostFlags, images: seq<string>)

  /** Authentication material a platform client acquired when it was constructed. */
  datatype Session = Session(token: string)

  /** A live client: the platform it talks to and its session. */
  datatype Client = Client(platform: PlatformId, session: Session)

  /** Configuration of one platform; the platform it configures selects the slot. */
  datatype Config = Config(platform: PlatformId, settings: string)

  /** One slot of a post result: absent (platform disabled), the post id, or the platform's error. */
  type Outcome = Option<Result<PostId, ApiError>>

  /** The four outcomes of one `send`. */
  type PostResultInner = Slots<Outcome>

  /** A network call issued by `send`. */
  datatype Call =
    | UploadCall(platform: PlatformId, image: Image)
    | PostCall(platform: PlatformId, message: string, refs: seq<MediaRef>, flags: PostFlags)

  /**
   * The collaborators of `send`, as total functions: the image loader, the
   * hashtag-line formatter, and each platform client's upload and post calls.
   */
  datatype Services = Services(
    open: string -> Result<Image, IoError>,
    joinHashTags: seq<string> -> string,
    upload: (PlatformId, Client, Image) -> Result<MediaRef, PlatformError>,
    post: (PlatformId, Client, string, seq<MediaRef>, PostFlags) -> Result<PostId, PlatformError>)

  // ---------------------------------------------------------------------------
  // The take-once post result
  // ---------------------------------------------------------------------------

  /** The outcomes of one `send`; each accessor hands its slot's outcome over exactly once. */
  class PostResult {
    var inner: PostResultInner

    constructor (inner: PostResultInner)
      ensures this.inner == inner
    {
      this.inner := inner;
    }

    /** Returns platform `p`'s outcome and empties its slot. */
    method Take(p: PlatformId) returns (r: Outcome)
      modifies this
      ensures r == old(inner).Get(p)
      ensures inner == old(inner).Set(p, None)
    {
      r := inner.Get(p);
      inner := inner.Set(p, None);
    }

    /** Retrieves Twitter's outcome, leaving its slot empty. */
    method Twitter() returns (r: Outcome)
      modifies this
      ensures r == old(inner).twitter
      ensures inner == old(inner).(twitter := None)
    {
      r := Take(PlatformId.Twitter);
    }

    /** Retrieves Gab's outcome, leaving its slot empty. */
    method Gab() returns (r: Outcome)
      modifies this
      ensures r == old(inner).gab
      ensures inner == old(inner).(gab := None)
    {
      r := Take(PlatformId.Gab);
    }

    /** Retrieves Mastodon's outcome, leaving its slot empty. */
    method Mastodon() returns (r: Outcome)
      modifies this
      ensures r == old(inner).mastodon
      ensures inner == old(inner).(mastodon := None)
    {
      r := Take(PlatformId.Mastodon);
    }

    /** Retrieves Minds's outcome, leaving its slot empty. */
    method Minds() returns (r: Outcome)
      modifies this
      ensures r == old(inner).minds
      ensures inner == old(inner).(minds := None)
    {
      r := Take(PlatformId.Minds);
    }

    /** The four outcomes as a tuple, in the order Twitter, Gab, Mastodon, Minds. */
    function IntoParts(): (r: (Outcome, Outcome, Outcome, Outcome))
      reads this
      ensures r.0 == inner.Get(PlatformId.Twitter) && r.1 == inner.Get(PlatformId.Gab)
      ensures r.2 == inner.Get(PlatformId.Mastodon) && r.3 == inner.Get(PlatformId.Minds)
    {
      (inner.twitter, inner.gab, inner.mastodon, inner.minds)
    }
  }

  /** Consume-once law: a second retrieval of a slot yields nothing, and the other slots are untouched. */
  method TakeTwice(result: PostResult, p: PlatformId) returns (first: Outcome, second: Outcome)
    modifies result
    ensures first == old(result.inner).Get(p)
    ensures second == None
    ensures result.inner.Get(p) == None
    ensures forall q :: q != p ==> result.inner.Get(q) == old(result.inner).Get(q)
  {
    first := result.Take(p);
    second := result.Take(p);
  }

  // ---------------------------------------------------------------------------
  // Message composition
  // ---------------------------------------------------------------------------

  /** The text actually posted: the message, then the hashtag line when there are tags. */
  function ComposeMessage(message: string, tags: seq<string>, joinHashTags: seq<string> -> string): string
  {
    if |tags| > 0 then
      if message == "" then joinHashTags(tags) else message + "\n" + joinHashTags(tags)
    else
      message
  }

  /**
   * Without tags the message is posted unchanged; with tags the posted text ends
   * with the hashtag line, which stands alone when the message is empty and
   * otherwise follows the whole message and one newline.
   */
  lemma ComposedMessageShape(message: string, tags: seq<string>, joinHashTags: seq<string> -> string)
    ensures var r, line := ComposeMessage(message, tags, joinHashTags), joinHashTags(tags);
      && (tags == [] ==> r == message)
      && (tags != [] ==> |r| >= |line| && r[|r| - |line|..] == line)
      && (tags != [] && message == "" ==> r == line)
      && (tags != [] && message != "" ==>
            |r| == |message| + 1 + |line| && r[..|message|] == message && r[|message|] == '\n')
  {
  }

  // ---------------------------------------------------------------------------
  // Pre-flight image loading
  // ---------------------------------------------------------------------------

  /** Path `k` is the first one the loader fails on. */
  ghost predicate FirstFailure(paths: seq<string>, open: string -> Result<Image, IoError>, k: int)
  {
    && 0 <= k < |paths|
    && open(paths[k]).Err?
    && forall j :: 0 <= j < k ==> open(paths[j]).Ok?
  }

  /**
   * What the pre-flight loop yields: every image, in path order, or the failure
   * of the first path that does not load.
   */
  function LoadAll(paths: seq<string>, open: string -> Result<Image, IoError>): (r: Result<seq<Image>, ApiError>)
    ensures r.Ok? <==> forall i :: 0 <= i < |paths| ==> open(paths[i]).Ok?
    ensures r.Ok? ==> |r.value| == |paths| && forall i :: 0 <= i < |paths| ==> r.value[i] == open(paths[i]).value
    ensures r.Err? ==> exists k :: FirstFailure(paths, open, k) && r.error == CannotLoadImage(paths[k], open(paths[k]).error)
    decreases |paths|
  {
    if |paths| == 0 then Ok([])
    else
      match open(paths[0])
      case Err(e) =>
        assert FirstFailure(paths, open, 0);
        Err(CannotLoadImage(paths[0], e))
      case Ok(image) =>
        var rest := LoadAll(paths[1..], open);
        match rest
        case Err(e) =>
          assert forall k :: FirstFailure(paths[1..], open, k) ==> FirstFailure(paths, open, k + 1);
          Err(e)
        case Ok(images) =>
          assert forall i :: 1 <= i < |paths| ==> paths[i] == paths[1..][i - 1];
          Ok([image] + images)
  }

  /** The pre-flight loop: opens every path in order and stops at the first failure. */
  method LoadImages(paths: seq<string>, open: string -> Result<Image, IoError>) returns (r: Result<seq<Image>, ApiError>)
    ensures r == LoadAll(paths, open)
  {
    var result: seq<Image> := [];
    var i := 0;
    while i < |paths|
      invariant 0 <= i <= |paths|
      invariant |result| == i
      invariant forall j :: 0 <= j < i ==> open(paths[j]).Ok? && result[j] == open(paths[j]).value
    {
      match open(paths[i]) {
        case Ok(image) =>
          result := result + [image];
        case Err(error) =>
          ghost var spec := LoadAll(paths, open);
          assert spec.Err?;
          ghost var k :| FirstFailure(paths, open, k) && spec.error == CannotLoadImage(paths[k], open(paths[k]).error);
          assert k == i;
          return Err(CannotLoadImage(paths[i], error));
      }
      i := i + 1;
    }
    assert result == LoadAll(paths, open).value;
    r := Ok(result);
  }

  // ---------------------------------------------------------------------------
  // Uploads and their join
  // ---------------------------------------------------------------------------

  /** The result of uploading each image to one platform, in image order. */
  function UploadsOf(p: PlatformId, client: Client, images: seq<Image>,
                     upload: (PlatformId, Client, Image) -> Result<MediaRef, PlatformError>): seq<Result<MediaRef, PlatformError>>
  {
    seq(|images|, i requires 0 <= i < |images| => upload(p, client, images[i]))
  }

  /** The upload calls one platform issues for a list of images. */
  function UploadCalls(p: PlatformId, images: seq<Image>): seq<Call>
  {
    seq(|images|, i requires 0 <= i < |images| => UploadCall(p, images[i]))
  }

  /** The join of a platform's uploads: every reference in order, or the first upload error. */
  function JoinAll(uploads: seq<Result<MediaRef, PlatformError>>): (r: Result<seq<MediaRef>, PlatformError>)
    ensures r.Ok? <==> forall i :: 0 <= i < |uploads| ==> uploads[i].Ok?
    ensures r.Ok? ==> |r.value| == |uploads| && forall i :: 0 <= i < |uploads| ==> r.value[i] == uploads[i].value
    ensures r.Err? ==> exists k :: 0 <= k < |uploads| && uploads[k] == Err(r.error) && forall j :: 0 <= j < k ==> uploads[j].Ok?
    decreases |uploads|
  {
    if |uploads| == 0 then Ok([])
    else
      match uploads[0]
      case Err(e) => Err(e)
      case Ok(first) =>
        match JoinAll(uploads[1..])
        case Err(e) =>
          assert forall i :: 1 <= i < |uploads| ==> uploads[i] == uploads[1..][i - 1];
          Err(e)
        case Ok(rest) =>
          assert forall i :: 1 <= i < |uploads| ==> uploads[i] == uploads[1..][i - 1];
          Ok([first] + rest)
  }

  /** The upload loop of one platform: issues one upload per image, in order. */
  method UploadAll(p: PlatformId, client: Client, images: seq<Image>,
                   upload: (PlatformId, Client, Image) -> Result<MediaRef, PlatformError>)
    returns (uploads: seq<Result<MediaRef, PlatformError>>, calls: seq<Call>)
    ensures uploads == UploadsOf(p, client, images, upload)
    ensures calls == UploadCalls(p, images)
  {
    uploads, calls := [], [];
    var i := 0;
    while i < |images|
      invariant 0 <= i <= |images|
      invariant |uploads| == i && |calls| == i
      invariant forall j :: 0 <= j < i ==> uploads[j] == upload(p, client, images[j])
      invariant forall j :: 0 <= j < i ==> calls[j] == UploadCall(p, images[j])
    {
      uploads := uploads + [upload(p, client, images[i])];
      calls := calls + [UploadCall(p, images[i])];
      i := i + 1;
    }
  }

  // ---------------------------------------------------------------------------
  // Per-platform branches
  // ---------------------------------------------------------------------------

  /** A branch's outcome slot and the network calls it issued, in order. */
  datatype Branch = Branch(outcome: Outcome, calls: seq<Call>)

  /** A platform's post result turned into data: the branch itself never fails. */
  function Settle(p: PlatformId, r: Result<PostId, PlatformError>): (o: Outcome)
    ensures o.Some?
    ensures o.value.Ok? <==> r.Ok?
    ensures r.Ok? ==> o.value.value == r.value
    ensures r.Err? ==> o.value.error == PlatformFailure(p, r.error)
  {
    match r
    case Ok(id) => Some(Ok(id))
    case Err(e) => Some(Err(PlatformFailure(p, e)))
  }

  /** The branch of a post without images: post with no attachments, if enabled. */
  function PostOnly(p: PlatformId, slot: Option<Client>, message: string, flags: PostFlags, s: Services): Branch
  {
    match slot
    case None => Branch(None, [])
    case Some(client) =>
      Branch(Settle(p, s.post(p, client, message, [], flags)), [PostCall(p, message, [], flags)])
  }

  /** The Twitter, Gab and Mastodon branch with images: upload every image, then post every reference. */
  function UploadThenPost(p: PlatformId, slot: Option<Client>, message: string, flags: PostFlags,
                          images: seq<Image>, s: Services): Branch
  {
    match slot
    case None => Branch(None, [])
    case Some(client) =>
      match JoinAll(UploadsOf(p, client, images, s.upload))
      case Err(e) => Branch(Some(Err(PlatformFailure(p, e))), UploadCalls(p, images))
      case Ok(refs) =>
        Branch(Settle(p, s.post(p, client, message, refs, flags)),
               UploadCalls(p, images) + [PostCall(p, message, refs, flags)])
  }

  /** The upload loop and post of one of Twitter, Gab and Mastodon. */
  method RunUploadThenPost(p: PlatformId, slot: Option<Client>, message: string, flags: PostFlags,
                           images: seq<Image>, s: Services) returns (b: Branch)
    ensures b == UploadThenPost(p, slot, message, flags, images, s)
  {
    match slot {
      case None =>
        b := Branch(None, []);
      case Some(client) =>
        var uploads, calls := UploadAll(p, client, images, s.upload);
        match JoinAll(uploads) {
          case Err(e) =>
            b := Branch(Some(Err(PlatformFailure(p, e))), calls);
          case Ok(refs) =>
            b := Branch(Settle(p, s.post(p, client, message, refs, flags)), calls + [PostCall(p, message, refs, flags)]);
        }
    }
  }

  /** The Minds branch with images: only the first image is uploaded and attached. */
  function MindsUploadThenPost(slot: Option<Client>, message: string, flags: PostFlags,
                               images: seq<Image>, s: Services): Branch
    requires |images| > 0
  {
    match slot
    case None => Branch(None, [])
    case Some(client) =>
      match s.upload(Minds, client, images[0])
      case Err(e) => Branch(Some(Err(PlatformFailure(Minds, e))), [UploadCall(Minds, images[0])])
      case Ok(ref) =>
        Branch(Settle(Minds, s.post(Minds, client, message, [ref], flags)),
               [UploadCall(Minds, images[0]), PostCall(Minds, message, [ref], flags)])
  }

  /** The branch platform `p` runs, given the loaded images (none when the post has no images). */
  function BranchFor(p: PlatformId, slot: Option<Client>, message: string, flags: PostFlags,
                     images: seq<Image>, s: Services): Branch
  {
    if |images| == 0 then PostOnly(p, slot, message, flags, s)
    else if p == Minds then MindsUploadThenPost(slot, message, flags, images, s)
    else UploadThenPost(p, slot, message, flags, images, s)
  }

  // ---------------------------------------------------------------------------
  // The whole send
  // ---------------------------------------------------------------------------

  /** The call-level result of `send` and every network call it issued. */
  datatype Sent = Sent(result: Result<PostResultInner, ApiError>, calls: seq<Call>)

  /** All four branches, joined in slot order. */
  function Dispatch(registry: Slots<Option<Client>>, message: string, flags: PostFlags,
                    images: seq<Image>, s: Services): Sent
  {
    var t := BranchFor(Twitter, registry.twitter, message, flags, images, s);
    var g := BranchFor(Gab, registry.gab, message, flags, images, s);
    var m := BranchFor(Mastodon, registry.mastodon, message, flags, images, s);
    var n := BranchFor(Minds, registry.minds, message, flags, images, s);
    Sent(Ok(Slots(t.outcome, g.outcome, m.outcome, n.outcome)), t.calls + g.calls + m.calls + n.calls)
  }

  /** What `send` does with a registry and a post request. */
  function SendSpec(registry: Slots<Option<Client>>, post: Post, s: Services): Sent
  {
    var message := ComposeMessage(post.message, post.tags, s.joinHashTags);
    if |post.images| == 0 then
      Dispatch(registry, message, post.flags, [], s)
    else
      match LoadAll(post.images, s.open)
      case Err(e) => Sent(Err(e), [])
      case Ok(images) => Dispatch(registry, message, post.flags, images, s)
  }

  // ---------------------------------------------------------------------------
  // The registry
  // ---------------------------------------------------------------------------

  /** Every installed client is a client of the platform whose slot holds it. */
  ghost predicate WellTyped(registry: Slots<Option<Client>>)
  {
    forall p :: registry.Get(p).Some? ==> registry.Get(p).value.platform == p
  }

  /** The registry of platform clients; each platform is enabled exactly when its slot holds a client. */
  class API {
    var twitter: Option<Client>
    var gab: Option<Client>
    var mastodon: Option<Client>
    var minds: Option<Client>

    /** The four slots, in platform order. */
    function Registry(): Slots<Option<Client>>
      reads this
    {
      Slots(twitter, gab, mastodon, minds)
    }

    ghost predicate Valid()
      reads this
    {
      WellTyped(Registry())
    }

    /** A registry with every platform disabled. */
    constructor ()
      ensures Valid()
      ensures Registry() == Slots(None, None, None, None)
    {
      twitter, gab, mastodon, minds := None, None, None, None;
    }

    /** Installs `v` in platform `p`'s slot. */
    method SetSlot(p: PlatformId, v: Option<Client>)
      modifies this
      ensures Registry() == old(Registry()).Set(p, v)
    {
      match p {
        case Twitter => twitter := v;
        case Gab => gab := v;
        case Mastodon => mastodon := v;
        case Minds => minds := v;
      }
    }

    /**
     * Configures the platform `config` is for. An enabled platform is left as it
     * is and no client is constructed; otherwise the client is constructed by
     * `build` (`built` records that construction ran) and installed, or
     * construction's error is returned and the slot stays empty.
     */
    method Configure(config: Config, build: Config -> Result<Session, PlatformError>)
      returns (r: Result<(), ApiError>, built: bool)
      requires Valid()
      modifies this
      ensures Valid()
      ensures built <==> old(Registry()).Get(config.platform).None?
      ensures old(Registry()).Get(config.platform).Some? ==> r == Ok(()) && Registry() == old(Registry())
      ensures old(Registry()).Get(config.platform).None? && build(config).Err? ==>
                r == Err(PlatformFailure(config.platform, build(config).error)) && Registry() == old(Registry())
      ensures old(Registry()).Get(config.platform).None? && build(config).Ok? ==>
                r == Ok(()) && Registry() == old(Registry()).Set(config.platform, Some(Client(config.platform, build(config).value)))
    {
      var p := config.platform;
      if Registry().Get(p).Some? {
        return Ok(()), false;
      }
      built := true;
      match build(config) {
        case Err(e) =>
          r := Err(PlatformFailure(p, e));
        case Ok(session) =>
          SetSlot(p, Some(Client(p, session)));
          r := Ok(());
      }
    }

    /** Installs `client` (or nothing) in platform `p`'s slot. */
    method Enable(p: PlatformId, client: Option<Client>)
      requires Valid()
      requires client.Some? ==> client.value.platform == p
      modifies this
      ensures Valid()
      ensures Registry() == old(Registry()).Set(p, client)
    {
      SetSlot(p, client);
    }

    /** Hands platform `p`'s client back to the caller and leaves the slot empty. */
    method Disable(p: PlatformId) returns (client: Option<Client>)
      requires Valid()
      modifies this
      ensures Valid()
      ensures client == old(Registry()).Get(p)
      ensures client.Some? ==> client.value.platform == p
      ensures Registry() == old(Registry()).Set(p, None)
    {
      client := Registry().Get(p);
      SetSlot(p, None);
    }

    /**
     * Sends a post to every enabled platform. Fails only when an image cannot be
     * loaded, before any network call; otherwise every slot of the result holds
     * its platform's outcome.
     */
    method Send(post: Post, s: Services) returns (r: Result<PostResult, ApiError>, calls: seq<Call>)
      ensures var sent := SendSpec(Registry(), post, s);
        && r.Ok? == sent.result.Ok?
        && (r.Err? ==> r.error == sent.result.error)
        && (r.Ok? ==> fresh(r.value) && r.value.inner == sent.result.value)
        && calls == sent.calls
    {
      var message := ComposeMessage(post.message, post.tags, s.joinHashTags);
      var inner: PostResultInner;
      if |post.images| == 0 {
        var t := PostOnly(Twitter, twitter, message, post.flags, s);
        var g := PostOnly(Gab, gab, message, post.flags, s);
        var m := PostOnly(Mastodon, mastodon, message, post.flags, s);
        var n := PostOnly(Minds, minds, message, post.flags, s);
        inner := Slots(t.outcome, g.outcome, m.outcome, n.outcome);
        calls := t.calls + g.calls + m.calls + n.calls;
      } else {
        var loaded := LoadImages(post.images, s.open);
        if loaded.Err? {
          return Err(loaded.error), [];
        }
        var images := loaded.value;
        var t := RunUploadThenPost(Twitter, twitter, message, post.flags, images, s);
        var g := RunUploadThenPost(Gab, gab, message, post.flags, images, s);
        var m := RunUploadThenPost(Mastodon, mastodon, message, post.flags, images, s);
        var n := MindsUploadThenPost(minds, message, post.flags, images, s);
        inner := Slots(t.outcome, g.outcome, m.outcome, n.outcome);
        calls := t.calls + g.calls + m.calls + n.calls;
      }
      var result := new PostResult(inner);
      r := Ok(result);
    }
  }

  /**
   * Configuring is idempotent: once a call has succeeded, configuring again
   * succeeds without constructing a client and leaves the registry as it was.
   */
  method ConfigureTwice(api: API, config: Config, build: Config -> Result<Session, PlatformError>)
    returns (first: Result<(), ApiError>, second: Result<(), ApiError>, builtAgain: bool)
    requires api.Valid()
    modifies api
    ensures api.Valid()
    ensures first.Ok? ==> second == Ok(()) && !builtAgain && api.Registry().Get(config.platform).Some?
    ensures first.Ok? && old(api.Registry()).Get(config.platform).Some? ==> api.Registry() == old(api.Registry())
    ensures old(api.Registry()).Get(config.platform).None? && build(config).Ok? ==>
              && first == Ok(()) && second == Ok(())
              && api.Registry() == old(api.Registry()).Set(config.platform, Some(Client(config.platform, build(config).value)))
  {
    var builtFirst;
    first, builtFirst := api.Configure(config, build);
    ghost var between := api.Registry();
    second, builtAgain := api.Configure(config, build);
    assert first.Ok? ==> api.Registry() == between;
  }

  /** Disabling a platform and enabling it again with the returned client restores the registry. */
  method DisableThenEnable(api: API, p: PlatformId) returns (client: Option<Client>)
    requires api.Valid()
    modifies api
    ensures api.Valid()
    ensures client == old(api.Registry()).Get(p)
    ensures api.Registry() == old(api.Registry())
  {
    client := api.Disable(p);
    api.Enable(p, client);
  }

  // ---------------------------------------------------------------------------
  // Properties of send
  // ---------------------------------------------------------------------------

  /** The calls of `calls` addressed to platform `p`, in order. */
  function CallsFor(calls: seq<Call>, p: PlatformId): seq<Call>
  {
    if calls == [] then []
    else (if calls[0].platform == p then [calls[0]] else []) + CallsFor(calls[1..], p)
  }

  lemma {:induction false} CallsForAppend(a: seq<Call>, b: seq<Call>, p: PlatformId)
    ensures CallsFor(a + b, p) == CallsFor(a, p) + CallsFor(b, p)
    decreases |a|
  {
    if a == [] {
      assert a + b == b;
    } else {
      assert (a + b)[1..] == a[1..] + b;
      CallsForAppend(a[1..], b, p);
    }
  }

  /** Filtering calls that all address `q`: everything is kept for `q`, nothing for any other platform. */
  lemma {:induction false} CallsForUniform(calls: seq<Call>, q: PlatformId, p: PlatformId)
    requires forall i :: 0 <= i < |calls| ==> calls[i].platform == q
    ensures CallsFor(calls, p) == if p == q then calls else []
    decreases |calls|
  {
    if calls != [] {
      CallsForUniform(calls[1..], q, p);
    }
  }

  /** A branch only ever calls its own platform. */
  lemma BranchCallsOwnPlatform(p: PlatformId, slot: Option<Client>, message: string, flags: PostFlags,
                               images: seq<Image>, s: Services)
    ensures var b := BranchFor(p, slot, message, flags, images, s);
      forall i :: 0 <= i < |b.calls| ==> b.calls[i].platform == p
  {
  }

  /**
   * Slot order and isolation: platform `p`'s slot of the joined result is its own
   * branch's outcome, and the calls addressed to `p` are exactly its branch's calls.
   */
  lemma {:induction false} DispatchIsolates(registry: Slots<Option<Client>>, message: string, flags: PostFlags,
                                            images: seq<Image>, s: Services, p: PlatformId)
    ensures var d, b := Dispatch(registry, message, flags, images, s), BranchFor(p, registry.Get(p), message, flags, images, s);
      && d.result.Ok?
      && d.result.value.Get(p) == b.outcome
      && CallsFor(d.calls, p) == b.calls
  {
    var t := BranchFor(Twitter, registry.twitter, message, flags, images, s);
    var g := BranchFor(Gab, registry.gab, message, flags, images, s);
    var m := BranchFor(Mastodon, registry.mastodon, message, flags, images, s);
    var n := BranchFor(Minds, registry.minds, message, flags, images, s);
    BranchCallsOwnPlatform(Twitter, registry.twitter, message, flags, images, s);
    BranchCallsOwnPlatform(Gab, registry.gab, message, flags, images, s);
    BranchCallsOwnPlatform(Mastodon, registry.mastodon, message, flags, images, s);
    BranchCallsOwnPlatform(Minds, registry.minds, message, flags, images, s);
    CallsForAppend(t.calls + g.calls + m.calls, n.calls, p);
    CallsForAppend(t.calls + g.calls, m.calls, p);
    CallsForAppend(t.calls, g.calls, p);
    CallsForUniform(t.calls, Twitter, p);
    CallsForUniform(g.calls, Gab, p);
    CallsForUniform(m.calls, Mastodon, p);
    CallsForUniform(n.calls, Minds, p);
  }

  /** `send` loads the images first and either stops there or dispatches with the loaded images. */
  lemma SendSpecLoadsFirst(registry: Slots<Option<Client>>, post: Post, s: Services)
    ensures var message := ComposeMessage(post.message, post.tags, s.joinHashTags);
      SendSpec(registry, post, s) ==
        match LoadAll(post.images, s.open)
        case Err(e) => Sent(Err(e), [])
        case Ok(images) => Dispatch(registry, message, post.flags, images, s)
  {
  }

  /**
   * The only call-level failure is an image that does not load: then the error
   * names the first such path and no network call at all is issued.
   */
  lemma SendFailsOnlyOnImageLoad(registry: Slots<Option<Client>>, post: Post, s: Services)
    ensures var sent := SendSpec(registry, post, s);
      && (sent.result.Err? <==> exists i :: 0 <= i < |post.images| && s.open(post.images[i]).Err?)
      && (sent.result.Err? ==> sent.calls == [])
      && (sent.result.Err? ==> exists k :: FirstFailure(post.images, s.open, k)
                                 && sent.result.error == CannotLoadImage(post.images[k], s.open(post.images[k]).error))
  {
    SendSpecLoadsFirst(registry, post, s);
    var message := ComposeMessage(post.message, post.tags, s.joinHashTags);
    match LoadAll(post.images, s.open)
    case Err(e) =>
    case Ok(images) =>
      DispatchIsolates(registry, message, post.flags, images, s, Twitter);
  }

  /**
   * A branch settles its slot: absent and silent exactly when the platform is
   * disabled, and an error in it is the platform's own, tagged with it.
   */
  lemma BranchOutcomeShape(p: PlatformId, slot: Option<Client>, message: string, flags: PostFlags,
                           images: seq<Image>, s: Services)
    ensures var b := BranchFor(p, slot, message, flags, images, s);
      && (slot.None? <==> b.outcome.None?)
      && (slot.None? ==> b.calls == [])
      && (b.outcome.Some? && b.outcome.value.Err? ==>
            b.outcome.value.error.PlatformFailure? && b.outcome.value.error.platform == p)
  {
  }

  /**
   * Once the images are loaded, each slot is settled by its own platform alone: a
   * disabled platform's slot is absent and it receives no call; an enabled
   * platform's slot is present, and an error in it is tagged with that platform.
   */
  lemma SendSlotOutcome(registry: Slots<Option<Client>>, post: Post, s: Services, p: PlatformId)
    requires LoadAll(post.images, s.open).Ok?
    ensures var sent, images := SendSpec(registry, post, s), LoadAll(post.images, s.open).value;
      var b := BranchFor(p, registry.Get(p), ComposeMessage(post.message, post.tags, s.joinHashTags), post.flags, images, s);
      && sent.result.Ok?
      && sent.result.value.Get(p) == b.outcome
      && CallsFor(sent.calls, p) == b.calls
      && (registry.Get(p).None? <==> sent.result.value.Get(p).None?)
      && (registry.Get(p).None? ==> CallsFor(sent.calls, p) == [])
      && (sent.result.value.Get(p).Some? && sent.result.value.Get(p).value.Err? ==>
            sent.result.value.Get(p).value.error.PlatformFailure? && sent.result.value.Get(p).value.error.platform == p)
  {
    var images := LoadAll(post.images, s.open).value;
    var message := ComposeMessage(post.message, post.tags, s.joinHashTags);
    SendSpecLoadsFirst(registry, post, s);
    assert SendSpec(registry, post, s) == Dispatch(registry, message, post.flags, images, s);
    DispatchIsolates(registry, message, post.flags, images, s, p);
    BranchOutcomeShape(p, registry.Get(p), message, post.flags, images, s);
  }

  /** Without images nothing is uploaded, and each enabled platform gets one post with no attachments. */
  lemma SendWithoutImages(registry: Slots<Option<Client>>, post: Post, s: Services, p: PlatformId)
    requires post.images == []
    ensures var sent, message := SendSpec(registry, post, s), ComposeMessage(post.message, post.tags, s.joinHashTags);
      && sent.result.Ok?
      && (registry.Get(p).Some? ==>
            && CallsFor(sent.calls, p) == [PostCall(p, message, [], post.flags)]
            && sent.result.value.Get(p) == Settle(p, s.post(p, registry.Get(p).value, message, [], post.flags)))
  {
    SendSlotOutcome(registry, post, s, p);
  }

  /**
   * Twitter, Gab and Mastodon upload every loaded image; if any upload fails they do
   * not post, and their slot holds a failing upload's error tagged with the platform.
   * With the joined uploads taken in image order, that upload is at or before any
   * known failing one.
   */
  lemma SendUploadFailureSkipsPost(registry: Slots<Option<Client>>, post: Post, s: Services, p: PlatformId, k: nat)
    requires p != Minds && registry.Get(p).Some?
    requires LoadAll(post.images, s.open).Ok? && |post.images| > 0
    requires var images := LoadAll(post.images, s.open).value;
      k < |images| && s.upload(p, registry.Get(p).value, images[k]).Err?
    ensures var sent, images := SendSpec(registry, post, s), LoadAll(post.images, s.open).value;
      && CallsFor(sent.calls, p) == UploadCalls(p, images)
      && (forall i :: 0 <= i < |CallsFor(sent.calls, p)| ==> !CallsFor(sent.calls, p)[i].PostCall?)
      && sent.result.value.Get(p).Some? && sent.result.value.Get(p).value.Err?
      && exists j :: 0 <= j <= k && s.upload(p, registry.Get(p).value, images[j]).Err?
                     && sent.result.value.Get(p).value.error == PlatformFailure(p, s.upload(p, registry.Get(p).value, images[j]).error)
  {
    SendSlotOutcome(registry, post, s, p);
    var images := LoadAll(post.images, s.open).value;
    var c := registry.Get(p).value;
    var uploads := UploadsOf(p, c, images, s.upload);
    assert uploads[k].Err?;
    var joined := JoinAll(uploads);
    assert joined.Err?;
    var j :| 0 <= j < |uploads| && uploads[j] == Err(joined.error) && forall i :: 0 <= i < j ==> uploads[i].Ok?;
    assert j <= k;
  }

  /** The references of a platform's uploads, in image order, when every upload succeeds. */
  function UploadedRefs(p: PlatformId, client: Client, images: seq<Image>,
                        upload: (PlatformId, Client, Image) -> Result<MediaRef, PlatformError>): seq<MediaRef>
    requires forall i :: 0 <= i < |images| ==> upload(p, client, images[i]).Ok?
  {
    seq(|images|, i requires 0 <= i < |images| => upload(p, client, images[i]).value)
  }

  /**
   * When all of its uploads succeed, Twitter, Gab and Mastodon each post once, with
   * every reference in image order, after all of their uploads.
   */
  lemma SendPostsEveryReference(registry: Slots<Option<Client>>, post: Post, s: Services, p: PlatformId)
    requires p != Minds && registry.Get(p).Some?
    requires LoadAll(post.images, s.open).Ok? && |post.images| > 0
    requires var images := LoadAll(post.images, s.open).value;
      forall i :: 0 <= i < |images| ==> s.upload(p, registry.Get(p).value, images[i]).Ok?
    ensures var sent, images := SendSpec(registry, post, s), LoadAll(post.images, s.open).value;
      var message, c := ComposeMessage(post.message, post.tags, s.joinHashTags), registry.Get(p).value;
      var refs := UploadedRefs(p, c, images, s.upload);
      && CallsFor(sent.calls, p) == UploadCalls(p, images) + [PostCall(p, message, refs, post.flags)]
      && sent.result.value.Get(p) == Settle(p, s.post(p, c, message, refs, post.flags))
  {
    SendSlotOutcome(registry, post, s, p);
    var images := LoadAll(post.images, s.open).value;
    var c := registry.Get(p).value;
    var joined := JoinAll(UploadsOf(p, c, images, s.upload));
    assert joined.Ok?;
    assert joined.value == UploadedRefs(p, c, images, s.upload);
  }

  /**
   * With images, Minds uploads only the first loaded image and attaches at most
   * that one reference; the other images never reach Minds.
   */
  lemma SendMindsFirstImageOnly(registry: Slots<Option<Client>>, post: Post, s: Services)
    requires registry.minds.Some?
    requires LoadAll(post.images, s.open).Ok? && |post.images| > 0
    ensures var sent, images := SendSpec(registry, post, s), LoadAll(post.images, s.open).value;
      var message, c := ComposeMessage(post.message, post.tags, s.joinHashTags), registry.minds.value;
      && |images| > 0
      && (s.upload(Minds, c, images[0]).Err? ==>
            && CallsFor(sent.calls, Minds) == [UploadCall(Minds, images[0])]
            && sent.result.value.minds == Some(Err(PlatformFailure(Minds, s.upload(Minds, c, images[0]).error))))
      && (s.upload(Minds, c, images[0]).Ok? ==>
            && CallsFor(sent.calls, Minds)
                 == [UploadCall(Minds, images[0]), PostCall(Minds, message, [s.upload(Minds, c, images[0]).value], post.flags)]
            && sent.result.value.minds == Settle(Minds, s.post(Minds, c, message, [s.upload(Minds, c, images[0]).value], post.flags)))
  {
    SendSlotOutcome(registry, post, s, Minds);
  }

  /**
   * Failure isolation without images: with every platform enabled, a slot is an
   * error exactly when that platform's own post fails.
   */
  lemma SendFailureIsolated(registry: Slots<Option<Client>>, post: Post, s: Services)
    requires post.images == []
    requires forall p :: registry.Get(p).Some?
    ensures var sent, message := SendSpec(registry, post, s), ComposeMessage(post.message, post.tags, s.joinHashTags);
      forall p :: && sent.result.value.Get(p).Some?
                  && (sent.result.value.Get(p).value.Err? <==> s.post(p, registry.Get(p).value, message, [], post.flags).Err?)
  {
    forall p | true
      ensures var sent, message := SendSpec(registry, post, s), ComposeMessage(post.message, post.tags, s.joinHashTags);
        && sent.result.value.Get(p).Some?
        && (sent.result.value.Get(p).value.Err? <==> s.post(p, registry.Get(p).value, message, [], post.flags).Err?)
    {
      SendWithoutImages(registry, post, s, p);
    }
  }
}
