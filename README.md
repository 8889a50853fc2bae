# fie: publishing one post to several social networks

This project is a Dafny model of the core of `fie`, a command-line tool that publishes one message to Twitter, Gab, Mastodon and Minds. A message can carry hashtags, images and an NSFW flag. The model covers three parts:

- **`Api` (`api.dfy`, src/lib/api/mod.rs)** is the publish orchestrator.
  - `API` is the registry: one optional client per platform, changed by `Configure`, `Enable` and `Disable`.
  - `PostResult` is the four-slot result. Each accessor hands its outcome over exactly once.
  - `API.Send` does the publishing. It composes the message from the text and the hashtag line. It loads every image before any network call, and one unreadable image aborts the whole call. Then it runs one branch per enabled platform: post only, or upload then post. Each branch turns its failure into data.
  - The pure `SendSpec` states what `Send` does. The lemmas about `SendSpec` state the orchestrator's guarantees.
- **`Cli` (`cli.dfy`, src/cli.rs)** post-processes the parsed command line. It decides which platforms the flags select, with a default when no flag is given. It also builds the post command: the message with its `#tag` line, and the image list.
- **`MindsActor` (`minds.dfy`, src/actors/minds.rs)** is the Minds actor. Its state is either not started (it holds the account) or started (it holds an OAuth2 token), and both request handlers check that state. The module also has the JSON payloads `Auth` and `Post`, and the rule that only the first image is attached.

`wrappers.dfy` holds `Option` and `Result`.

## How the collaborators are modelled

- The image loader, `join_hash_tags` and the platform clients' `upload_image` and `post` are total functions collected in `Api.Services`.
- Client construction (`Twitter::new`, `Gab::new`, `Mastodon::new`, `Minds::new` in the API layer) is the `build` parameter of `Configure`. `Configure`'s `built` result records whether construction ran.
- The Minds actor's request builder, transport and JSON decoders are the functions in `MindsActor.Http`.
- Every network call the model issues is returned as a trace. In `Api` this is a sequence of `Call`. In `MindsActor` it is the list of `Request`s sent. Properties such as "no call before the images load" are stated over these traces.
- The four futures joined by `join4` run one after another in the fixed slot order Twitter, Gab, Mastodon, Minds. The trace follows that order.
- Minds' `post` takes an optional reference: `None` without images (src/lib/api/mod.rs:202) and `Some(image)` with them (src/lib/api/mod.rs:283). The model uses the one shared `Services.post` for every platform, which takes a sequence of references. An empty sequence stands for `None` and a one-element sequence for `Some`. `Api.SendWithoutImages` and `Api.SendMindsFirstImageOnly` show that Minds only ever receives zero or one reference.
- The four error variants `ApiError::Twitter(..)`, `ApiError::Gab(..)`, `ApiError::Mastodon(..)` and `ApiError::Minds(..)` are modelled as one variant, `PlatformFailure(platform, error)`.
- In the source, each registry slot has its own client type. In the model, a `Client` records its platform, and `API.Valid()` requires every slot to hold a client of its own platform. This is why `Enable` requires a matching client.

## Notes on the code's behaviour

- **Minds in `send`.** Only the first image, `images[0]`, is uploaded to Minds, and that one reference is attached (src/lib/api/mod.rs:279-286). `images.get_unchecked(0)` is safe: that branch runs only after the loop has loaded every path, and there is at least one path. In the model, `images[0]` is checked at that point and the check is proved.
- **Hashtags in the CLI with an empty message.** For an empty message with tags, `Commands::from_matches` produces `"\n#t1 #t2"` (src/cli.rs:84). It keeps the leading newline. `send` composes differently: given an empty message and tags, the posted text is the hashtag line alone (src/lib/api/mod.rs:154). No call site in the modelled files passes the CLI's message to `send`; the two compositions are compared as functions. `Cli.TaggedMessageAgainstCompose` states both behaviours.

## Model

| member | source | states |
|---|---|---|
| `Api.Slots.Set` | src/lib/api/mod.rs:75-79 | replacing one slot of the four-slot tuple gives that slot the new value and leaves the other three unchanged |
| `Api.PostResult.Take` | src/lib/api/mod.rs:83-100 | a retrieval returns the slot's current outcome and leaves that slot `None`, the other slots unchanged |
| `Api.PostResult.Twitter` | src/lib/api/mod.rs:83-85 | returns Twitter's outcome and empties only the Twitter slot |
| `Api.PostResult.Gab` | src/lib/api/mod.rs:88-90 | returns Gab's outcome and empties only the Gab slot |
| `Api.PostResult.Mastodon` | src/lib/api/mod.rs:93-95 | returns Mastodon's outcome and empties only the Mastodon slot |
| `Api.PostResult.Minds` | src/lib/api/mod.rs:98-100 | returns Minds's outcome and empties only the Minds slot |
| `Api.PostResult.IntoParts` | src/lib/api/mod.rs:102-107 | the parts come in the fixed order Twitter, Gab, Mastodon, Minds |
| `Api.TakeTwice` | src/lib/api/mod.rs:83-100 | consume-once: the first retrieval gets the outcome, the second gets `None`, the other slots are untouched |
| `Api.API.constructor` | src/lib/api/mod.rs:121-129 | a new registry has every platform disabled |
| `Api.API.Configure` | src/lib/api/mod.rs:318-325 | for the config's platform (the same code is at 339-346, 360-367 and 381-388). If the slot is occupied: `Ok(())` and the registry is unchanged. If construction fails: the error, tagged with the platform, and the slot stays empty. Otherwise: the new client is installed. No other slot changes, and every slot keeps a client of its own platform. `built` holds exactly when the slot was empty, so construction runs only then |
| `Api.API.SetSlot` | src/lib/api/mod.rs:323-332 | the field assignments of `configure`, `enable` and `disable` (here for Mastodon, the same at 344-353, 365-374, 386-395): exactly platform `p`'s slot becomes `v`, the other three are unchanged |
| `Api.API.Enable` | src/lib/api/mod.rs:327-329 | the slot becomes exactly the given value, including `None`, and the other slots are unchanged (same code at 348-350, 369-371, 390-392) |
| `Api.API.Disable` | src/lib/api/mod.rs:331-333 | returns the slot's previous client and leaves the slot empty, the other slots unchanged (same code at 352-354, 373-375, 394-396) |
| `Api.ConfigureTwice` | src/lib/api/mod.rs:131-136 | idempotence: once `configure` has succeeded, configuring again succeeds without constructing a client and leaves the slot occupied. When the first call installs the client, the registry afterwards is the old one with exactly that client installed. An already-installed client is kept unchanged |
| `Api.DisableThenEnable` | src/lib/api/mod.rs:138-146 | disabling a platform hands back its client, and enabling with that client restores the registry |
| `Api.ComposedMessageShape` | src/lib/api/mod.rs:152-159 | no tags: the message is unchanged. With tags, the text ends with the hashtag line. That line is the whole text when the message is empty. Otherwise it follows the whole message and one newline |
| `Api.ComposeMessage` | src/lib/api/mod.rs:152-159 | the posted text; its three cases are stated by `Api.ComposedMessageShape`, and its relation to the CLI's composition by `Cli.TaggedMessageAgainstCompose` |
| `Api.LoadAll` | src/lib/api/mod.rs:214-225 | loading succeeds exactly when every path loads. It yields one image per path, in order. Otherwise it fails with the first failing path and that path's error |
| `Api.LoadImages` | src/lib/api/mod.rs:214-225 | the pre-flight loop opens the paths in order and stops at the first failure. Its result is `LoadAll` |
| `Api.UploadAll` | src/lib/api/mod.rs:229-233 | one upload per image, in image order, and the calls are recorded in that order |
| `Api.JoinAll` | src/lib/api/mod.rs:235-238 | the join of a platform's uploads: every reference in order exactly when all uploads succeed, otherwise the first failing upload's error |
| `Api.Settle` | src/lib/api/mod.rs:169-171 | a branch never fails: the outcome is always present. It is `Ok` exactly when the platform's result is, with the same post id, and otherwise holds the error tagged with the platform (same code at 181-183, 192-194, 202-204, 235-238, 282-285) |
| `Api.PostOnly` | src/lib/api/mod.rs:167-210 | the branch of a post without images: no slot and no call when disabled, otherwise one post without attachments. Stated through `Api.BranchOutcomeShape` and `Api.SendWithoutImages` |
| `Api.UploadThenPost` | src/lib/api/mod.rs:227-277 | the Twitter, Gab and Mastodon branch with images. `Api.RunUploadThenPost` is proved equal to it. `Api.SendUploadFailureSkipsPost` and `Api.SendPostsEveryReference` state its calls and outcome |
| `Api.MindsUploadThenPost` | src/lib/api/mod.rs:279-289 | the Minds branch with images, which uploads `images[0]` only. Stated through `Api.SendMindsFirstImageOnly` |
| `Api.Dispatch` | src/lib/api/mod.rs:178-211 | the `join4` of the four branches in slot order (also at 245-290). `Api.DispatchIsolates` states that each slot and each platform's calls come from its own branch |
| `Api.SendSpec` | src/lib/api/mod.rs:149-297 | what `send` does. `Api.API.Send` is proved equal to it. `Api.SendFailsOnlyOnImageLoad`, `Api.SendSlotOutcome`, `Api.SendWithoutImages` and the lemmas after them state its properties |
| `Api.BranchFor` | src/lib/api/mod.rs:164-291 | the branch each platform runs: post only without images, the first-image branch for Minds, otherwise upload then post. Stated through `Api.BranchOutcomeShape` and `Api.DispatchIsolates` |
| `Api.RunUploadThenPost` | src/lib/api/mod.rs:227-242 | the Twitter, Gab and Mastodon branch for posts with images: uploads, then a post carrying the joined references, with the error turned into data |
| `Api.PostResult.constructor` | src/lib/api/mod.rs:294-296 | the `PostResult { inner }` literal: the new result holds exactly the given four slots |
| `Api.API.Send` | src/lib/api/mod.rs:149-297 | `send` returns the result and issues the calls `SendSpec` gives for the current registry. The result is a fresh `PostResult` whose slots are `SendSpec`'s, the literal at 294-296 |
| `Api.BranchOutcomeShape` | src/lib/api/mod.rs:167-176 | a disabled platform's slot is `None` and it issues no call. An enabled platform's slot is `Some`, and an error in it is tagged with that platform |
| `Api.DispatchIsolates` | src/lib/api/mod.rs:178-211 | each slot of the joined result is its own platform's branch outcome, and the calls addressed to a platform are exactly its branch's calls |
| `Api.SendFailsOnlyOnImageLoad` | src/lib/api/mod.rs:213-225 | `send` fails exactly when some image path does not load. The error names the first failing path and its cause, and no network call is issued |
| `Api.SendSlotOutcome` | src/lib/api/mod.rs:227-291 | once the images have loaded, `send` returns `Ok`. Each slot is its own branch's outcome. A slot is `None` exactly when its platform is disabled, and then the platform gets no call. A slot's error is tagged with its own platform |
| `Api.SendWithoutImages` | src/lib/api/mod.rs:165-211 | without images, each enabled platform gets exactly one post with no attachments and no upload, and its slot is that post's result. Disabled platforms get no call and a `None` slot, stated by `Api.SendSlotOutcome` |
| `Api.SendUploadFailureSkipsPost` | src/lib/api/mod.rs:235-238 | for Twitter, Gab and Mastodon: every image is uploaded. If one fails, the platform gets no post call, and its slot holds a failing upload's error, for the model's join in image order one at or before the known failing one (see "Left out") |
| `Api.SendPostsEveryReference` | src/lib/api/mod.rs:229-238 | for Twitter, Gab and Mastodon: when all uploads succeed, the platform gets exactly one post, after the uploads, carrying every reference in image order |
| `Api.SendMindsFirstImageOnly` | src/lib/api/mod.rs:279-286 | with images, Minds gets exactly one upload, the first image's. It is posted with that single reference, or is not posted if the upload fails |
| `Api.SendFailureIsolated` | src/lib/api/mod.rs:165-211 | with every platform enabled and no images, a slot holds an error exactly when that platform's own post fails |
| `Cli.FlagsFromMatches` | src/cli.rs:98-113 | `None` exactly when none of `gab`, `twitter`, `minds` is present. Otherwise each field is its flag's presence, so at least one field is true |
| `Cli.HashTokens` | src/cli.rs:84 | one token per tag, in order, each being `#` followed by the tag |
| `Cli.HashTagLine` | src/cli.rs:84 | the `#t1 #t2 …` line; `Cli.HashTagLineTokens` states that splitting it at its spaces gives back the `#`-prefixed tags in order |
| `Cli.TaggedMessage` | src/cli.rs:83-86 | the CLI's message with tags folded in. `Cli.CommandsFromMatches` states its cases, `Cli.TaggedMessageExample` gives an instance, and `Cli.TaggedMessageAgainstCompose` compares it with `send` |
| `Cli.CommandsFromMatches` | src/cli.rs:75-92 | the images are the `image` values in order, or `None`. Without `tag` the message is unchanged. With tags it is the message, a newline and the hashtag line, even when the message is empty |
| `Cli.ArgsNew` | src/cli.rs:124-133 | always `Ok`. The flags are the supplied default exactly when no platform flag is present, and otherwise are the flags' presence |
| `Cli.HashTagLineTokens` | src/cli.rs:84 | splitting the hashtag line at its spaces gives back `#t1`, `#t2`, … in order (for tags without spaces), so the line is the tags joined by single spaces |
| `Cli.TaggedMessageExample` | src/cli.rs:83-86 | "Hello" with tags "rust" and "go" becomes "Hello\n#rust #go" |
| `Cli.TaggedMessageAgainstCompose` | src/cli.rs:83-86 | compared with `send`'s composition, when `join_hash_tags` builds the line as the CLI does: the same for a non-empty message or no tags, and one leading newline more for an empty message with tags |
| `MindsActor.NewAuth` | src/actors/minds.rs:29-37 | grant type `password`, empty client id and secret, username and password passed through |
| `MindsActor.NewPost` | src/actors/minds.rs:62-75 | `mature` is 1 exactly when NSFW and otherwise 0. `access_id` is 2 and `is_rich` is 0. Title, description, thumbnail, url and wire threshold are `None`. Message and attachment are passed through |
| `MindsActor.FirstGuid` | src/actors/minds.rs:195-198 | the attachment is present exactly when a non-empty image list is given, and it is the first image's guid |
| `MindsActor.ReadGuid` | src/actors/minds.rs:162-169 | success exactly for a 2xx answer whose body decodes, giving its guid. A non-success status gives "Minds server returned error code …". Transport and decoding errors get their own prefixes |
| `MindsActor.StatusError` | src/actors/minds.rs:166 | the message for a non-success status, "Minds server returned error code " and the status; the same `format!` is at 211. `MindsActor.ReadGuid` and `MindsActor.OutcomesAgreeOnSuccess` state where it is used |
| `MindsActor.UploadOutcome` | src/actors/minds.rs:162-169 | the upload handler's result: success with the decoded guid exactly for a 2xx answer whose body decodes. A transport error gets the prefix "Minds upload error: ". A non-success status gives the status error with no prefix. A decoding error gets the prefix "Minds upload reading error: " |
| `MindsActor.PostOutcome` | src/actors/minds.rs:207-214 | the post handler's result: success with the decoded guid exactly for a 2xx answer whose body decodes. Transport and decoding errors get the prefix "Minds post error: ". A non-success status gives the status error with no prefix |
| `MindsActor.AuthRequest` | src/actors/minds.rs:102-104 | the login request; `MindsActor.AuthRequestCarriesAccount` states its endpoint, its missing bearer and its password-grant body |
| `MindsActor.UploadRequest` | src/actors/minds.rs:155-157 | the multipart request to the media endpoint with the token; `MindsActor.Minds.HandleUpload` sends exactly it |
| `MindsActor.PostRequest` | src/actors/minds.rs:193-200 | the newsfeed request with the token. `MindsActor.PostRequestAttachesFirstImage` and `MindsActor.PostRequestWithoutImages` state its attachment |
| `MindsActor.LoginOutcome` | src/actors/minds.rs:115-129 | the login succeeds exactly when the transport answers and the body decodes to a token, and it yields that token |
| `MindsActor.Minds.constructor` | src/actors/minds.rs:135-137 | a new actor is `NotStarted` with the given account |
| `MindsActor.Minds.Start` | src/actors/minds.rs:92-131 | an already started actor stops with an internal error and sends nothing. If the login request cannot be serialised, it stops unsent and stays not started. Otherwise it sends one login request carrying the account. A granted token moves it to `Started(token)`. A transport or parse failure stops it in its old state |
| `MindsActor.Minds.HandleUpload` | src/actors/minds.rs:143-172 | when not started: "Unable to send Minds request" and no request. If the multipart request cannot be built: the builder's error as is, and no request. Otherwise one multipart request with the token, and `UploadOutcome` of the answer |
| `MindsActor.Minds.HandlePost` | src/actors/minds.rs:183-217 | when not started: "Unable to send Minds request" and no request. If the request cannot be built: "Minds post actix error: " plus the builder's error, and no request. Otherwise one newsfeed request with the token whose payload is `Post::new(content, first guid, flags)`, and `PostOutcome` of the answer |
| `MindsActor.PostRequestAttachesFirstImage` | src/actors/minds.rs:195-200 | a post's request attaches the first image's guid whatever images follow, and carries the content and the NSFW marking |
| `MindsActor.PostRequestWithoutImages` | src/actors/minds.rs:195-198 | without images, or with an empty list, the post has no attachment |
| `MindsActor.OutcomesAgreeOnSuccess` | src/actors/minds.rs:209-214 | both handlers succeed on the same answers, with the decoded guid, and both report a non-success status the same way |
| `MindsActor.AuthRequestCarriesAccount` | src/actors/minds.rs:102-104 | the login request goes to the OAuth2 endpoint without a bearer token and carries the password grant for the configured account |
| `MindsActor.StartedActorServesPosts` | src/actors/minds.rs:124 | a new actor that is granted a token keeps running and then sends the post request with that token |

## Left out

- src/http.rs: runtime and TLS set-up, and the process-wide request timeout. `API::new` keeps only the four empty slots, and the HTTP runtime is not part of this model.
- The platform clients `send` calls (`Twitter`, `Gab`, `Mastodon`, `Minds`, declared as the submodules of src/lib/api/mod.rs:4-12) are not part of this model. `Services.upload` and `Services.post` stand for their `upload_image(name, mime, bytes)` and `post(message, refs, flags)`, called at src/lib/api/mod.rs:231 and 236. src/api/twitter.rs and src/api/gab.rs are separate clients with other signatures, and no modelled code calls them.
- Concurrency in `send` (`join4`, `join_all`, `Either`): branches run one after another in slot order, with no interleaving.
- `Api.JoinAll`: reports the first failing upload by image position. `join_all` returns the error of the first failing upload it sees complete. When several uploads fail, that can be a later image's error, depending on timing.
- `Api.SendUploadFailureSkipsPost`: its bound, a failing upload at or before the known failing image `k`, holds only for the model's join in image order. Under `join_all`'s timing, the part that carries over is that the slot holds the error of some failing upload of that platform.
- `Api.UploadAll`: every upload is issued, matching the loop that creates every upload future. The model does not capture that the futures still pending are dropped once one of them fails.
- `crate::data::Image::open`, `join_hash_tags` and `PostId` are not part of this model. They are abstract functions and values, and the hashtag line `send` uses is whatever `joinHashTags` returns.
- The clap builder (`parser`, `new_command`, `arg`, `flag`, `parse_int`): library behaviour. Its result is the `ArgMatches` value.
- `Commands::from_matches` panics in three cases, which the model turns into preconditions of `Cli.CommandsFromMatches`. With no subcommand at all it panics at `matches.unwrap()` (src/cli.rs:77). With any subcommand other than `post` it reaches `unimplemented!` (src/cli.rs:90). A missing message panics at the `unwrap` on src/cli.rs:81, though clap marks the message as required.
- Side effects of client construction (network, files) are not modelled. `build` is a pure function, and `Configure`'s `built` flag records only whether `build` was called.
- `Display` and `From` implementations of `ApiError`: message formatting only.
- Minds actor plumbing (`into_actor`, `wait`, `ctx.stop`, `send_ext`, JSON encoding and decoding, default headers) and its `eprintln!` diagnostics. Stopping is the `Lifecycle` result, and the reason is a `StopReason` value rather than the printed text.
- `MindsActor.ReadGuid`: the status code's rendering in "Minds server returned error code …" is the response's `text` field, because `StatusCode`'s `Display` is library behaviour.
