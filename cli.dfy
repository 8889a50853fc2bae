/**
 * Post-processing of the parsed command line (src/cli.rs): which platforms the
 * flags select, and the post command's message (hashtags folded in) and images.
 *
 * The argument parser itself is not modelled; its output is an `ArgMatches`
 * value: the set of flags present and the ordered values of each option given.
 */
module Cli {
  import opened Wrappers
  import Api

  /** The parser's view of one (sub)command: flags present, and the values of each option given. */
  datatype ArgMatches = ArgMatches(present: set<string>, values: map<string, seq<string>>)

  /** The whole parse: the top-level matches and the selected subcommand's name and matches. */
  datatype CommandLine = CommandLine(top: ArgMatches, subcommandName: string, subcommand: Option<ArgMatches>)

  /** The platforms a post goes to. */
  datatype Platforms = Platforms(gab: bool, twitter: bool, minds: bool)

  /** The post command: the message with its hashtag line, and the image paths if any were given. */
  datatype Commands = Post(message: string, images: Option<seq<string>>)

  /** The parsed arguments: the command and the selected platforms. */
  datatype Args = Args(command: Commands, flags: Platforms)

  function IsPresent(m: ArgMatches, name: string): bool
  {
    name in m.present
  }

  /** The values of option `name`, in the order given, or `None` when it is absent. */
  function ValuesOf(m: ArgMatches, name: string): Option<seq<string>>
  {
    if name in m.values then Some(m.values[name]) else None
  }

  // ---------------------------------------------------------------------------
  // Platform selection
  // ---------------------------------------------------------------------------

  /** The platforms the flags select, or `None` when no platform flag is given. */
  function FlagsFromMatches(m: ArgMatches): (r: Option<Platforms>)
    ensures r.None? <==> !IsPresent(m, "gab") && !IsPresent(m, "twitter") && !IsPresent(m, "minds")
    ensures r.Some? ==> r.value == Platforms(IsPresent(m, "gab"), IsPresent(m, "twitter"), IsPresent(m, "minds"))
    ensures r.Some? ==> r.value.gab || r.value.twitter || r.value.minds
  {
    var gab := IsPresent(m, "gab");
    var twitter := IsPresent(m, "twitter");
    var minds := IsPresent(m, "minds");
    if !gab && !twitter && !minds then None else Some(Platforms(gab, twitter, minds))
  }

  // ---------------------------------------------------------------------------
  // The hashtag line
  // ---------------------------------------------------------------------------

  /** Each tag with a leading `#`, in order. */
  function HashTokens(tags: seq<string>): (r: seq<string>)
    ensures |r| == |tags|
    ensures forall i :: 0 <= i < |tags| ==> r[i] == "#" + tags[i]
  {
    if tags == [] then [] else ["#" + tags[0]] + HashTokens(tags[1..])
  }

  /** The parts joined by single spaces. */
  function JoinSpaced(parts: seq<string>): string
  {
    if |parts| == 0 then ""
    else if |parts| == 1 then parts[0]
    else parts[0] + " " + JoinSpaced(parts[1..])
  }

  /** The hashtag line the command line appends: `#t1 #t2 ...`. */
  function HashTagLine(tags: seq<string>): string
  {
    JoinSpaced(HashTokens(tags))
  }

  /** The message posted: with tags, the message, a newline and the hashtag line, even for an empty message. */
  function TaggedMessage(message: string, tags: Option<seq<string>>): string
  {
    match tags
    case Some(ts) => message + "\n" + HashTagLine(ts)
    case None => message
  }

  // ---------------------------------------------------------------------------
  // Commands and arguments
  // ---------------------------------------------------------------------------

  /** Builds the post command from its subcommand's matches; `message` is a required argument. */
  function CommandsFromMatches(name: string, matches: Option<ArgMatches>): (c: Commands)
    requires name == "post"
    requires matches.Some?
    requires ValuesOf(matches.value, "message").Some? && |ValuesOf(matches.value, "message").value| > 0
    ensures var message := ValuesOf(matches.value, "message").value[0];
      && c.images == ValuesOf(matches.value, "image")
      && (ValuesOf(matches.value, "tag").None? ==> c.message == message)
      && (ValuesOf(matches.value, "tag").Some? ==>
            c.message == message + "\n" + HashTagLine(ValuesOf(matches.value, "tag").value))
  {
    var m := matches.value;
    var message := ValuesOf(m, "message").value[0];
    Post(TaggedMessage(message, ValuesOf(m, "tag")), ValuesOf(m, "image"))
  }

  /** The well-formed parses: the post subcommand with its required message. */
  predicate IsPostCommandLine(cl: CommandLine)
  {
    && cl.subcommandName == "post"
    && cl.subcommand.Some?
    && ValuesOf(cl.subcommand.value, "message").Some?
    && |ValuesOf(cl.subcommand.value, "message").value| > 0
  }

  /** The parsed arguments, with `platforms` used when no platform flag is given. */
  function ArgsNew(cl: CommandLine, platforms: Platforms): (r: Result<Args, string>)
    requires IsPostCommandLine(cl)
    ensures r.Ok?
    ensures r.value.command == CommandsFromMatches(cl.subcommandName, cl.subcommand)
    ensures !IsPresent(cl.top, "gab") && !IsPresent(cl.top, "twitter") && !IsPresent(cl.top, "minds") ==>
              r.value.flags == platforms
    ensures IsPresent(cl.top, "gab") || IsPresent(cl.top, "twitter") || IsPresent(cl.top, "minds") ==>
              r.value.flags == Platforms(IsPresent(cl.top, "gab"), IsPresent(cl.top, "twitter"), IsPresent(cl.top, "minds"))
  {
    var command := CommandsFromMatches(cl.subcommandName, cl.subcommand);
    var flags := match FlagsFromMatches(cl.top) case Some(f) => f case None => platforms;
    Ok(Args(command, flags))
  }

  // ---------------------------------------------------------------------------
  // Properties of the hashtag line
  // ---------------------------------------------------------------------------

  /** Splits a string at every space; the inverse of `JoinSpaced` on space-free parts. */
  function Words(s: string): (r: seq<string>)
    ensures |r| > 0
    decreases |s|
  {
    if |s| == 0 then [""]
    else
      var rest := Words(s[1..]);
      if s[0] == ' ' then [""] + rest else [[s[0]] + rest[0]] + rest[1..]
  }

  lemma {:induction false} WordsOfSpaceFree(a: string)
    requires ' ' !in a
    ensures Words(a) == [a]
    decreases |a|
  {
    if |a| > 0 {
      WordsOfSpaceFree(a[1..]);
      assert [a[0]] + a[1..] == a;
    }
  }

  lemma {:induction false} WordsAfterSpace(a: string, b: string)
    requires ' ' !in a
    ensures Words(a + " " + b) == [a] + Words(b)
    decreases |a|
  {
    if |a| == 0 {
      assert (a + " " + b)[1..] == b;
    } else {
      assert (a + " " + b)[1..] == a[1..] + " " + b;
      WordsAfterSpace(a[1..], b);
      assert [a[0]] + a[1..] == a;
    }
  }

  /** Splitting the joined line at its spaces gives back the parts. */
  lemma {:induction false} WordsOfJoinSpaced(parts: seq<string>)
    requires |parts| > 0
    requires forall i :: 0 <= i < |parts| ==> ' ' !in parts[i]
    ensures Words(JoinSpaced(parts)) == parts
    decreases |parts|
  {
    if |parts| == 1 {
      WordsOfSpaceFree(parts[0]);
    } else {
      WordsOfJoinSpaced(parts[1..]);
      WordsAfterSpace(parts[0], JoinSpaced(parts[1..]));
      assert [parts[0]] + parts[1..] == parts;
    }
  }

  /**
   * The hashtag line is exactly the tags, each prefixed with `#`, in order and
   * separated by single spaces: splitting it at its spaces gives those tokens back.
   */
  lemma HashTagLineTokens(tags: seq<string>)
    requires |tags| > 0
    requires forall i :: 0 <= i < |tags| ==> ' ' !in tags[i]
    ensures Words(HashTagLine(tags)) == HashTokens(tags)
    ensures var w := Words(HashTagLine(tags)); |w| == |tags| && forall i :: 0 <= i < |tags| ==> w[i] == "#" + tags[i]
  {
    var tokens := HashTokens(tags);
    forall i | 0 <= i < |tokens|
      ensures ' ' !in tokens[i]
    {
      assert tokens[i] == "#" + tags[i];
    }
    WordsOfJoinSpaced(tokens);
  }

  /** The message "Hello" with the tags "rust" and "go" is posted as "Hello\n#rust #go". */
  lemma TaggedMessageExample()
    ensures TaggedMessage("Hello", Some(["rust", "go"])) == "Hello\n#rust #go"
  {
    var tokens := HashTokens(["rust", "go"]);
    assert "#" + "rust" == "#rust" && "#" + "go" == "#go";
    assert tokens == ["#rust", "#go"];
    assert JoinSpaced(tokens) == "#rust" + " " + "#go";
  }

  /**
   * Where the command line and the publish step compose differently, when the
   * publish step's `join_hash_tags` builds the line as the command line does: for
   * a non-empty message both give the message, a newline and the hashtag line; for
   * an empty message with tags the command line keeps a leading newline, while the
   * publish step posts the hashtag line alone.
   */
  lemma TaggedMessageAgainstCompose(message: string, tags: seq<string>)
    requires |tags| > 0
    ensures message != "" ==> TaggedMessage(message, Some(tags)) == Api.ComposeMessage(message, tags, HashTagLine)
    ensures message == "" ==> TaggedMessage(message, Some(tags)) == "\n" + Api.ComposeMessage(message, tags, HashTagLine)
    ensures TaggedMessage(message, None) == Api.ComposeMessage(message, [], HashTagLine)
  {
  }
}
